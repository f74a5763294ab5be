/**
 One SMTP delivery attempt and how its outcome is classified. The server is an oracle: a dialogue
 says how it answers each stage and, where the client cannot know, whether it took the message.
 */
module Smtp {
  datatype Status = Sent | Failed | Unknown

  datatype Stage = Validate | Connect | MailFrom | RcptTo | Data | Commit | Complete

  datatype DeliveryResult = DeliveryResult(status: Status, stage: Stage)

  /** The answer to the end of the message data: positive, an SMTP error code, or a lost connection. */
  datatype EndReply = Accepted | Rejected(code: nat) | Lost(took: bool)

  datatype Dialogue = Dialogue(
    configValid: bool,
    envelopeValid: bool,
    connects: bool,
    mailOk: bool,
    rcptOk: seq<bool>,
    dataOk: bool,
    copyOk: bool,
    tookAfterBrokenCopy: bool,
    end: EndReply)
  {
    /** The message data was asked for, so the server may have come to own the message. */
    predicate ReachesData() {
      configValid && envelopeValid && connects && mailOk && (forall i :: 0 <= i < |rcptOk| ==> rcptOk[i]) && dataOk
    }

    /** The server took responsibility for the message (section 4.1.1.4 of RFC 5321). */
    predicate ServerAccepts() {
      ReachesData() && if copyOk then end.Accepted? || (end.Lost? && end.took) else tookAfterBrokenCopy
    }
  }

  function CommitFailureStatus(end: EndReply): Status {
    if end.Rejected? then Failed else Unknown
  }

  /**
   The reported status. Sent and failed are never wrong about the server; unknown is reported exactly
   when the client cannot tell.
   */
  function SendStatus(d: Dialogue): (s: Status)
    ensures s == Sent ==> d.ServerAccepts()
    ensures s == Failed ==> !d.ServerAccepts()
    ensures s == Unknown <==> d.ReachesData() && (!d.copyOk || d.end.Lost?)
  {
    if !d.ReachesData() then Failed
    else if !d.copyOk then Unknown
    else if d.end.Accepted? then Sent
    else CommitFailureStatus(d.end)
  }

  /** What the sender reports, stage by stage. */
  method Send(d: Dialogue) returns (r: DeliveryResult)
    ensures r.status == SendStatus(d)
    ensures r.status == Sent <==> r.stage == Complete
    ensures r.stage == Commit <==> d.ReachesData() && (!d.copyOk || !d.end.Accepted?)
    ensures r.stage == RcptTo <==>
              d.configValid && d.envelopeValid && d.connects && d.mailOk && exists i :: 0 <= i < |d.rcptOk| && !d.rcptOk[i]
  {
    if !d.configValid || !d.envelopeValid {
      return DeliveryResult(Failed, Validate);
    }
    if !d.connects {
      return DeliveryResult(Failed, Connect);
    }
    if !d.mailOk {
      return DeliveryResult(Failed, MailFrom);
    }
    for i := 0 to |d.rcptOk|
      invariant forall j :: 0 <= j < i ==> d.rcptOk[j]
    {
      if !d.rcptOk[i] {
        return DeliveryResult(Failed, RcptTo);
      }
    }
    if !d.dataOk {
      return DeliveryResult(Failed, Data);
    }
    if !d.copyOk {
      return DeliveryResult(Unknown, Commit);
    }
    if !d.end.Accepted? {
      return DeliveryResult(CommitFailureStatus(d.end), Commit);
    }
    return DeliveryResult(Sent, Complete);
  }
}
