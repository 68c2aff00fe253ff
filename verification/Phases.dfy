/** The phases and steps of provisioning (session.go, reprovision.go), and what a recorded phase says of the identity
    and of a repair. */
module Phases {
  /** The recorded phases. A guest's own phases carry their names; they are not among the host's. */
  datatype Phase =
    | Bootstrap | ConnectionVerification | VisualStudioLayout | CredentialSync | DevelopmentProvisioning
    | Guest(name: string) | TailscaleIdentity | ConfigurationSync | HerdrProvision | Verification | HerdrIntegrations
    | HerdrWorkspace | MobilePreparation | MobileVerification | DevelopmentIncomplete | OptionalUnavailable
    | Completed | Interrupted

  /** tailscaleFailurePrecedesIdentity. */
  predicate PrecedesIdentity(phase: Phase) {
    match phase
    case Guest(name) => NamePrecedesIdentity(name)
    case _ => phase in {Bootstrap, ConnectionVerification, VisualStudioLayout, DevelopmentProvisioning, CredentialSync}
  }

  predicate NamePrecedesIdentity(name: string) {
    name in
      ["guest-identity", "ssh-material", "ssh-verification", "ssh-alias", "herdr-verification", "tailscale-preflight",
       "tailscale-not-enrolled", "preparing", "bootstrap", "connection-verification", "visual-studio-layout",
       "development-provisioning", "credential-sync"]
  }

  /** The phases a repair starts from. */
  predicate RepairPhase(phase: Phase) {
    phase == DevelopmentIncomplete || phase == OptionalUnavailable
  }

  datatype State = Running | Succeeded | NotSucceeded

  datatype Record = Record(state: State, phase: Phase)

  datatype Outcome = Fine | Error | Crash

  datatype Step =
    | WaitConnectable | SameIdentity | WriteConnection | VerifySsh | InstallAlias | Snapshot | PrepareLayout
    | EarlyCredentials | ProvisionGuest | VerifyReadyGuest | CaptureTailscale | ConfigureTailscale | SyncConfiguration
    | ProvisionHerdr | PublishHerdr | VerifyHerdr | InstallIntegrations | CreateWorkspaces | PrepareMobile
    | ActivateMobile | VerifyMobile | VerifyUnchanged

  datatype Plan = Plan(layout: bool, earlyCredentials: bool, tailscale: bool, mobileKeys: bool)

  /** What an operation finds: no ready.json, a ready session to refresh, or one to repair. */
  datatype Mode = Fresh | Refreshing | Repairing

  /** A step that establishes or captures the Tailscale identity. */
  predicate TouchesIdentity(step: Step) {
    step == CaptureTailscale || step == ConfigureTailscale
  }

  /** The guest's own provisioning, or one of its phases. */
  predicate GuestPhase(phase: Phase) {
    phase == DevelopmentProvisioning || phase.Guest?
  }

  /** The phases a step is reported under when it fails. */
  predicate RunsUnder(step: Step, phase: Phase) {
    match step
    case WaitConnectable | SameIdentity => phase == Bootstrap
    case WriteConnection | VerifySsh | InstallAlias | Snapshot => phase == ConnectionVerification
    case PrepareLayout => phase == VisualStudioLayout
    case EarlyCredentials => phase == CredentialSync
    case ProvisionGuest | VerifyReadyGuest => GuestPhase(phase)
    case CaptureTailscale | ConfigureTailscale => phase == TailscaleIdentity
    case SyncConfiguration => phase == ConfigurationSync
    case ProvisionHerdr | PublishHerdr => phase == HerdrProvision
    case VerifyHerdr => phase == Verification
    case InstallIntegrations => phase == HerdrIntegrations
    case CreateWorkspaces => phase == HerdrWorkspace
    case PrepareMobile | ActivateMobile => phase == MobilePreparation
    case VerifyMobile => phase == MobileVerification || GuestPhase(phase)
    case VerifyUnchanged => phase in {HerdrIntegrations, HerdrWorkspace, MobileVerification} || GuestPhase(phase)
  }

  function When<T>(condition: bool, items: seq<T>): seq<T> {
    if condition then items else []
  }

  const CONNECTION_STEPS := [WriteConnection, VerifySsh, InstallAlias, Snapshot]

  function AwaitSteps(mode: Mode): seq<Step> {
    [WaitConnectable] + When(mode != Fresh, [SameIdentity])
  }

  function EarlySteps(mode: Mode, plan: Plan): seq<Step> {
    When(mode != Repairing && plan.layout, [PrepareLayout]) +
    When(mode == Refreshing && plan.earlyCredentials, [EarlyCredentials])
  }

  /** Up to the provisioning snapshot, the layout and the early credentials. */
  function ConnectSteps(mode: Mode, plan: Plan): seq<Step> {
    AwaitSteps(mode) + CONNECTION_STEPS + EarlySteps(mode, plan)
  }

  /** Up to the tools. */
  function ToolSteps(mode: Mode, plan: Plan): seq<Step> {
    ConnectSteps(mode, plan) + [ProvisionGuest]
  }

  const ACTIVATION_STEPS := [SyncConfiguration, ProvisionHerdr, PublishHerdr]
  const RUNTIME_STEPS := [VerifyHerdr, InstallIntegrations]

  function IdentitySteps(mode: Mode, plan: Plan): seq<Step> {
    When(plan.tailscale, [if mode == Fresh then ConfigureTailscale else CaptureTailscale])
  }

  function RuntimeSteps(mode: Mode, plan: Plan): seq<Step> {
    IdentitySteps(mode, plan) + ACTIVATION_STEPS + RUNTIME_STEPS
  }

  function MobileSteps(mode: Mode, plan: Plan): seq<Step> {
    When(plan.mobileKeys && mode == Fresh, [PrepareMobile, ActivateMobile]) + When(plan.mobileKeys, [VerifyMobile])
  }

  function PublishSteps(mode: Mode, plan: Plan): seq<Step> {
    When(mode == Fresh, [CreateWorkspaces]) + MobileSteps(mode, plan) + [VerifyUnchanged]
  }

  /** The steps after the tools. */
  function LaterSteps(mode: Mode, plan: Plan): seq<Step> {
    if mode == Repairing then [VerifyReadyGuest, VerifyUnchanged] + When(plan.mobileKeys, [VerifyMobile])
    else RuntimeSteps(mode, plan) + PublishSteps(mode, plan)
  }

  /** Every step of an operation, in order. */
  function PlannedSteps(mode: Mode, plan: Plan): seq<Step> {
    ToolSteps(mode, plan) + LaterSteps(mode, plan)
  }

  datatype SessionState = Ready | Connectable | Starting | Failed | Stopped | Unmanaged
}
