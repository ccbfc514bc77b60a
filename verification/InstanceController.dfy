// controllers/baremetalinstance/controller.go: gives an instance its first phase and lets it go
// once it is terminated.
module InstanceController {
  import opened Common
  import opened Objects
  import opened Store

  // Update writes the main resource, and passes the webhook; UpdateStatus the status.
  datatype Effect = NoEffect | Update(bmi: Instance) | UpdateStatus(bmi: Instance)

  function Decide(bmi: Instance): Effect {
    if bmi.deleting then
      if bmi.phase != Terminated then NoEffect
      else Update(bmi.(finalizers := bmi.finalizers - {OwnFinalizer}))
    else if bmi.phase == NoPhase then UpdateStatus(bmi.(phase := Pending))
    else NoEffect
  }

  /** The store after what a pass decided. */
  function Apply(c: Cluster, k: Key, e: Effect): Cluster {
    match e
    case NoEffect => c
    case Update(bmi) => SubmitInstance(c, k, bmi)
    case UpdateStatus(bmi) => WriteInstance(c, k, bmi)
  }

  /** The store after one uninterrupted reconcile. */
  function Reconciled(c: Cluster, k: Key): Cluster {
    if k !in c.instances then c else Apply(c, k, Decide(c.instances[k]))
  }

  class Controller {

    method Reconcile(api: ApiServer, k: Key) returns (err: Outcome)
      modifies api
      ensures api.View() == Reconciled(old(api.View()), k)
    {
      err := Pass;
      var fetched := api.GetInstance(k);
      if fetched == None {
        return;
      }
      var bmi := fetched.value;
      if bmi.deleting {
        if bmi.phase != Terminated {
          return;
        }
        bmi := bmi.(finalizers := bmi.finalizers - {OwnFinalizer});
        err := api.UpdateInstance(k, bmi);
        return;
      }
      if bmi.phase == NoPhase {
        bmi := bmi.(phase := Pending);
        err := api.UpdateInstanceStatus(k, bmi);
      }
    }
  }
}
