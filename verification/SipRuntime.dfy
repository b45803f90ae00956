// The observation record every layer reads, and the predicates that decide
// whether it may be trusted.
module SipRuntime {
  import opened Common

  datatype SipStatus = Unavailable | Disconnected | Registering | Registered | Calling | Ringing | InCall | Failed
  datatype SipEvidence = NoEvidence | VerifiedNativeApi
  datatype RuntimeProcess = Stopped | Running | Stopping | ProcessFailed

  datatype Observation = Observation(
    process: RuntimeProcess, sip: SipStatus, evidence: SipEvidence,
    session: U64, callId: U64, lastCallId: U64)

  function Untrusted(process: RuntimeProcess): Observation {
    Observation(process, SipStatus.Unavailable, NoEvidence, 0, 0, 0)
  }

  function Fresh(process: RuntimeProcess, session: U64): Observation {
    Observation(process, SipStatus.Unavailable, VerifiedNativeApi, session, 0, 0)
  }

  predicate ProofIsCurrent(o: Observation, session: U64) {
    o.process == Running && o.evidence == VerifiedNativeApi && session != 0 && o.session == session
  }

  function EffectiveStatus(o: Observation, session: U64): SipStatus {
    if ProofIsCurrent(o, session) then o.sip else SipStatus.Unavailable
  }

  datatype CallAction = Dial | Answer | Hangup

  predicate CanApply(status: SipStatus, action: CallAction) {
    match action
    case Dial => status == Registered
    case Answer => status == Ringing
    case Hangup => HasCall(status)
  }

  predicate HasCall(status: SipStatus) {
    status == Calling || status == Ringing || status == InCall
  }

  predicate MayUseCallControl(o: Observation, session: U64, action: CallAction) {
    CanApply(EffectiveStatus(o, session), action)
  }

  // Registered, with or without a call.
  predicate Live(status: SipStatus) {
    status == Registered || HasCall(status)
  }

  // No action is open to anyone without a current proof, and with one exactly
  // the actions its status has room for.
  lemma ControlNeedsCurrentProof(o: Observation, session: U64, action: CallAction)
    ensures MayUseCallControl(o, session, action) <==> ProofIsCurrent(o, session) && CanApply(o.sip, action)
  {
  }
}
