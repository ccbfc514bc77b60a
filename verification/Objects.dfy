// The API objects of the instance and hardware life cycle, as a client fetches them: plain
// values, copied on every read. A condition list is kept as the map from type to condition
// that module Conditions shows it to be.
module Objects {
  import opened Common

  datatype ConditionStatus = StatusTrue | StatusFalse | StatusError | StatusUnknown

  // The finalizer a controller of this repository put on the object, or one of somebody else.
  datatype Finalizer = OwnFinalizer | ForeignFinalizer(name: string)

  // ---------------------------------------------------------------- BareMetalInstance

  datatype Phase = NoPhase | Pending | Provisioning | Running | Cleaning | Terminating | Terminated

  /** The position of a phase in the life of an instance. */
  function PhaseIndex(p: Phase): nat {
    match p
    case NoPhase => 0
    case Pending => 1
    case Provisioning => 2
    case Running => 3
    case Cleaning => 4
    case Terminating => 5
    case Terminated => 6
  }

  datatype InstanceConditionType = InstanceScheduled | InstanceNetworked | InstanceImaged | InstanceCleaned

  datatype Toleration = Toleration(key: string, operator: string, value: string, effect: string)

  // An agent IP identifies the machine that answers on it, so agentInfo holds the machine.
  datatype Instance = Instance(
    uid: nat,
    version: nat,
    deleting: bool,
    finalizers: set<Finalizer>,
    selector: map<string, string>,
    tolerations: seq<Toleration>,
    phase: Phase,
    conditions: map<InstanceConditionType, ConditionStatus>,
    hardwareName: string,
    agentInfo: Option<string>)
  {
    predicate Has(t: InstanceConditionType) {
      t in conditions
    }

    predicate Is(t: InstanceConditionType, status: ConditionStatus) {
      t in conditions && conditions[t] == status
    }

    function SetCondition(t: InstanceConditionType, status: ConditionStatus): Instance {
      this.(conditions := conditions[t := status])
    }
  }

  // ---------------------------------------------------------------- BareMetalHardware

  datatype TaintKey = NotReadyKey | NoScheduleKey | OtherKey(name: string)
  datatype TaintEffect = NoScheduleEffect | PreferNoScheduleEffect | NoExecuteEffect
  datatype Taint = Taint(key: TaintKey, value: string, effect: TaintEffect)

  datatype Bond = Bond(interfaces: seq<string>, mode: string)
  datatype NetworkRef = NetworkRef(group: string, kind: string, name: string)
  datatype NIC = NIC(name: string, primary: bool, bond: Option<Bond>, networkRef: NetworkRef)

  datatype DiscoveredNIC = DiscoveredNIC(name: string, mac: string)
  datatype Discovered = Discovered(cpus: int, ram: int, nics: seq<DiscoveredNIC>, storage: seq<string>)

  datatype HardwareConditionType = HardwareSet | ImageDriveValid | NicsValid
  datatype HardwareReason =
    | HardwareIsSet | HardwareIsNotSet
    | ValidImageDrive | InvalidImageDrive | ImageDriveIsNotSet
    | ValidNics | InvalidNics | NicsAreNotSet
    | NoReason
  datatype HardwareCondition = HardwareCondition(status: ConditionStatus, reason: HardwareReason)

  datatype InstanceRef = InstanceRef(key: Key, uid: nat)

  datatype Hardware = Hardware(
    version: nat,
    deleting: bool,
    finalizers: set<Finalizer>,
    labels: map<string, string>,
    systemUUID: string,
    canProvision: bool,
    imageDrive: string,
    nics: seq<NIC>,
    taints: seq<Taint>,
    conditions: map<HardwareConditionType, HardwareCondition>,
    instanceRef: Option<InstanceRef>,
    discovered: Option<Discovered>)
  {
    predicate Is(t: HardwareConditionType, status: ConditionStatus) {
      t in conditions && conditions[t].status == status
    }

    predicate HasReason(t: HardwareConditionType, reason: HardwareReason) {
      t in conditions && conditions[t].reason == reason
    }

    function SetCondition(t: HardwareConditionType, status: ConditionStatus, reason: HardwareReason): Hardware {
      this.(conditions := conditions[t := HardwareCondition(status, reason)])
    }

    predicate HasTaint(key: TaintKey) {
      exists i :: 0 <= i < |taints| && taints[i].key == key
    }
  }
}
