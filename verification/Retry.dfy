/** The get-modify-update helpers: each tries at most five times, reading the object afresh. */
module Retry {
  import opened Kube
  import opened Worlds
  import opened Calls

  const STEPS: nat := 5

  /** updateServiceAnnotationWithRetry and updateMultipleServiceAnnotations. */
  function EditAnnotations(w: World, k: Key, edits: Annotations, attempts: nat): Out<bool>
    decreases attempts
  {
    if attempts == 0 then Out(w, false) else
      var got := GetService(w, k);
      match got.v {
        case Failed => EditAnnotations(got.w, k, edits, attempts - 1)
        case Missing => Out(got.w, true)
        case Found(o) =>
          var put := UpdateService(got.w, o.(annotations := o.annotations + edits));
          match put.v {
            case Written => Out(put.w, true)
            case Conflict => EditAnnotations(put.w, k, edits, attempts - 1)
            case Rejected => Out(put.w, false)
          }
      }
  }

  /** updateServiceExternalIPs */
  function AddExternalIP(w: World, k: Key, ip: string, attempts: nat): Out<bool>
    decreases attempts
  {
    if attempts == 0 then Out(w, false) else
      var got := GetService(w, k);
      match got.v {
        case Failed => AddExternalIP(got.w, k, ip, attempts - 1)
        case Missing => Out(got.w, true)
        case Found(o) =>
          if ip in o.spec.externalIPs then Out(got.w, true) else
            var put := UpdateService(got.w, o.(spec := o.spec.(externalIPs := o.spec.externalIPs + [ip])));
            match put.v {
              case Written => Out(put.w, true)
              case Conflict => AddExternalIP(put.w, k, ip, attempts - 1)
              case Rejected => Out(put.w, false)
            }
      }
  }

  /** updateResourceWithRetry for a service: the caller's whole copy goes out under the version
      just read. */
  function WriteService(w: World, o: Service, attempts: nat): Out<bool>
    decreases attempts
  {
    if attempts == 0 then Out(w, false) else
      var got := GetService(w, o.key);
      match got.v {
        case Failed => WriteService(got.w, o, attempts - 1)
        case Missing => Out(got.w, true)
        case Found(current) =>
          var put := UpdateService(got.w, o.(version := current.version));
          match put.v {
            case Written => Out(put.w, true)
            case Conflict => WriteService(put.w, o, attempts - 1)
            case Rejected => Out(put.w, false)
          }
      }
  }

  /** updateResourceWithRetry for a load balancer. */
  function WriteLB(w: World, o: LoadBalancer, attempts: nat): Out<bool>
    decreases attempts
  {
    if attempts == 0 then Out(w, false) else
      var got := GetLB(w, o.key);
      match got.v {
        case Failed => WriteLB(got.w, o, attempts - 1)
        case Missing => Out(got.w, true)
        case Found(current) =>
          var put := UpdateLB(got.w, o.(version := current.version));
          match put.v {
            case Written => Out(put.w, true)
            case Conflict => WriteLB(put.w, o, attempts - 1)
            case Rejected => Out(put.w, false)
          }
      }
  }

  /** updateStatusWithRetry */
  function WriteStatus(w: World, k: Key, status: LBStatus, attempts: nat): Out<bool>
    decreases attempts
  {
    if attempts == 0 then Out(w, false) else
      var got := GetLB(w, k);
      match got.v {
        case Failed => WriteStatus(got.w, k, status, attempts - 1)
        case Missing => Out(got.w, true)
        case Found(current) =>
          var put := UpdateLBStatus(got.w, current.(status := status));
          match put.v {
            case Written => Out(put.w, true)
            case Conflict => WriteStatus(put.w, k, status, attempts - 1)
            case Rejected => Out(put.w, false)
          }
      }
  }
}
