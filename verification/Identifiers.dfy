/** Public thread identifiers ("th.<agent>.<thread>") and public approval identifiers
    ("apr.<machine>.<request>"), with the laws that let each hop translate them independently. */
module Identifiers {
  import opened Text
  import Base64Url

  datatype ResolveError = AgentMismatch | AgentRequired | ThreadRequired

  datatype Resolution = Resolved(agentID: Bytes, threadID: Bytes) | Unresolved(error: ResolveError)

  const THREAD_PREFIX: Bytes := ['t', 'h']
  const APPROVAL_PREFIX: Bytes := ['a', 'p', 'r']

  function Joined(prefix: Bytes, left: Bytes, right: Bytes): Bytes {
    prefix + ['.'] + Base64Url.Encode(left) + ['.'] + Base64Url.Encode(right)
  }

  // ----- threads -----

  function PublicThreadID(agentID: Bytes, runtimeThreadID: Bytes): Bytes {
    if Blank(agentID) || Blank(runtimeThreadID) then TrimSpace(runtimeThreadID)
    else Joined(THREAD_PREFIX, agentID, runtimeThreadID)
  }

  function DecodePublicThreadID(publicThreadID: Bytes): Option<(Bytes, Bytes)> {
    var parts := Split(TrimSpace(publicThreadID), '.');
    if |parts| != 3 || parts[0] != THREAD_PREFIX then None
    else
      match (Base64Url.Decode(parts[1]), Base64Url.Decode(parts[2]))
      case (Some(agentID), Some(threadID)) =>
        if Blank(agentID) || Blank(threadID) then None else Some((agentID, threadID))
      case _ => None
  }

  function ResolveRuntimeThread(agentID: Bytes, threadID: Bytes): Resolution {
    match DecodePublicThreadID(threadID)
    case Some((decodedAgentID, decodedThreadID)) =>
      if !Blank(agentID) && decodedAgentID != agentID then Unresolved(AgentMismatch)
      else Resolved(decodedAgentID, decodedThreadID)
    case None =>
      if Blank(agentID) then Unresolved(AgentRequired)
      else if Blank(threadID) then Unresolved(ThreadRequired)
      else Resolved(agentID, threadID)
  }

  /** The thread identifier the client puts on timeline events. */
  function PublicTimelineThreadID(agentID: Bytes, threadID: Bytes): Bytes {
    match DecodePublicThreadID(threadID)
    case Some((decodedAgentID, decodedThreadID)) => PublicThreadID(decodedAgentID, decodedThreadID)
    case None => PublicThreadID(agentID, threadID)
  }

  /** A joined identifier is trimmed and splits into its prefix and its two encoded parts. */
  lemma JoinedSplits(prefix: Bytes, left: Bytes, right: Bytes)
    requires prefix == THREAD_PREFIX || prefix == APPROVAL_PREFIX
    requires right != []
    ensures Trimmed(Joined(prefix, left, right)) && !Blank(Joined(prefix, left, right))
    ensures Split(Joined(prefix, left, right), '.')
         == [prefix, Base64Url.Encode(left), Base64Url.Encode(right)]
  {
    var s := Joined(prefix, left, right);
    Base64Url.RoundTrip(left);
    Base64Url.RoundTrip(right);
    var encoded := Base64Url.Encode(right);
    assert s[|s| - 1] == encoded[|encoded| - 1];
    assert Base64Url.DecodeSextet(encoded[|encoded| - 1]).Some?;
    VisibleEndsAreTrimmed(s);
    SplitThree(prefix, Base64Url.Encode(left), encoded, '.');
  }

  lemma NotBlankNotEmpty(s: Bytes)
    requires !Blank(s)
    ensures s != []
  {
  }

  lemma ThreadIDRoundTrip(agentID: Bytes, threadID: Bytes)
    requires !Blank(agentID) && !Blank(threadID)
    ensures DecodePublicThreadID(PublicThreadID(agentID, threadID)) == Some((agentID, threadID))
  {
    NotBlankNotEmpty(threadID);
    JoinedSplits(THREAD_PREFIX, agentID, threadID);
    Base64Url.RoundTrip(agentID);
    Base64Url.RoundTrip(threadID);
  }

  lemma PublicThreadIDInjective(a1: Bytes, t1: Bytes, a2: Bytes, t2: Bytes)
    requires !Blank(a1) && !Blank(t1) && !Blank(a2) && !Blank(t2)
    requires PublicThreadID(a1, t1) == PublicThreadID(a2, t2)
    ensures a1 == a2 && t1 == t2
  {
    ThreadIDRoundTrip(a1, t1);
    ThreadIDRoundTrip(a2, t2);
  }

  /** Whatever agent the caller names, a public identifier resolves to the pair it was made from,
      unless the caller insists on another agent. */
  lemma ResolveInvertsPublicThreadID(caller: Bytes, agentID: Bytes, threadID: Bytes)
    requires !Blank(agentID) && !Blank(threadID)
    ensures ResolveRuntimeThread(caller, PublicThreadID(agentID, threadID))
         == if Blank(caller) || caller == agentID then Resolved(agentID, threadID)
            else Unresolved(AgentMismatch)
  {
    ThreadIDRoundTrip(agentID, threadID);
  }

  /** Publishing an identifier that is public already, on behalf of any agent, changes nothing. */
  lemma PublishingIsStable(agentID: Bytes, threadID: Bytes, other: Bytes)
    requires !Blank(agentID) && !Blank(threadID)
    ensures var published := PublicTimelineThreadID(agentID, threadID);
            PublicTimelineThreadID(other, published) == published
  {
    match DecodePublicThreadID(threadID)
    case Some((decodedAgentID, decodedThreadID)) => ThreadIDRoundTrip(decodedAgentID, decodedThreadID);
    case None => ThreadIDRoundTrip(agentID, threadID);
  }

  // ----- approvals -----

  function EncodePublicApprovalID(machineID: Bytes, rawRequestID: Bytes): Bytes {
    if Blank(machineID) || Blank(rawRequestID) then [] else Joined(APPROVAL_PREFIX, machineID, rawRequestID)
  }

  function DecodePublicApprovalID(machineID: Bytes, publicRequestID: Bytes): Option<Bytes> {
    var parts := Split(TrimSpace(publicRequestID), '.');
    if |parts| != 3 || parts[0] != APPROVAL_PREFIX then None
    else if Base64Url.Decode(parts[1]) != Some(machineID) then None
    else
      match Base64Url.Decode(parts[2])
      case Some(requestID) => if Blank(requestID) then None else Some(requestID)
      case None => None
  }

  /** The key under which gateway and client file an approval. */
  function ApprovalKey(machineID: Bytes, requestID: Bytes): Bytes {
    var trimmed := TrimSpace(requestID);
    if trimmed == [] then []
    else if DecodePublicApprovalID(machineID, trimmed).Some? then trimmed
    else EncodePublicApprovalID(machineID, trimmed)
  }

  /** The identifier the client hands to the runtime; `remembered` maps the public identifiers of
      approvals seen in this session to their raw form. */
  function RawApprovalID(machineID: Bytes, remembered: map<Bytes, Bytes>, requestID: Bytes): Option<Bytes> {
    var trimmed := TrimSpace(requestID);
    if trimmed == [] then None
    else if DecodePublicApprovalID(machineID, trimmed).Some? then DecodePublicApprovalID(machineID, trimmed)
    else if trimmed in remembered && !Blank(remembered[trimmed]) then Some(remembered[trimmed])
    else if APPROVAL_PREFIX + ['.'] <= trimmed then None
    else Some(trimmed)
  }

  /** A request identifier as an agent issues it: trimmed, not empty, and not public already. */
  predicate RawFor(machineID: Bytes, requestID: Bytes) {
    Trimmed(requestID) && requestID != [] && DecodePublicApprovalID(machineID, requestID).None?
  }

  lemma ApprovalIDRoundTrip(machineID: Bytes, rawRequestID: Bytes)
    requires !Blank(machineID) && !Blank(rawRequestID)
    ensures var id := EncodePublicApprovalID(machineID, rawRequestID);
            && DecodePublicApprovalID(machineID, id) == Some(rawRequestID)
            && Trimmed(id) && id != []
  {
    NotBlankNotEmpty(rawRequestID);
    JoinedSplits(APPROVAL_PREFIX, machineID, rawRequestID);
    Base64Url.RoundTrip(machineID);
    Base64Url.RoundTrip(rawRequestID);
  }

  /** Normalising twice is normalising once, for every machine and every text. */
  lemma ApprovalKeyIdempotent(machineID: Bytes, requestID: Bytes)
    ensures ApprovalKey(machineID, ApprovalKey(machineID, requestID)) == ApprovalKey(machineID, requestID)
  {
    var trimmed := TrimSpace(requestID);
    TrimSpaceIdempotent(requestID);
    if trimmed != [] && DecodePublicApprovalID(machineID, trimmed).None? && !Blank(machineID) {
      ApprovalIDRoundTrip(machineID, trimmed);
    }
  }

  /** Raw form and public form of one approval are filed under one key, and from that key the
      runtime is handed the raw identifier again, whatever the session remembers. */
  lemma ApprovalIdentitySurvives(machineID: Bytes, raw: Bytes, remembered: map<Bytes, Bytes>)
    requires !Blank(machineID) && RawFor(machineID, raw)
    ensures ApprovalKey(machineID, raw) == EncodePublicApprovalID(machineID, raw)
    ensures ApprovalKey(machineID, EncodePublicApprovalID(machineID, raw)) == ApprovalKey(machineID, raw)
    ensures RawApprovalID(machineID, remembered, ApprovalKey(machineID, raw)) == Some(raw)
  {
    ApprovalIDRoundTrip(machineID, raw);
  }

  /** Different approvals have different keys, across all machines. */
  lemma ApprovalKeysDistinct(m1: Bytes, raw1: Bytes, m2: Bytes, raw2: Bytes)
    requires !Blank(m1) && RawFor(m1, raw1)
    requires !Blank(m2) && RawFor(m2, raw2)
    requires ApprovalKey(m1, raw1) == ApprovalKey(m2, raw2)
    ensures m1 == m2 && raw1 == raw2
  {
    JoinedSplits(APPROVAL_PREFIX, m1, raw1);
    JoinedSplits(APPROVAL_PREFIX, m2, raw2);
    Base64Url.EncodeInjective(m1, m2);
    Base64Url.EncodeInjective(raw1, raw2);
  }

  /** A public text that decodes to a raw identifier shares that identifier's key exactly when it
      is the canonical encoding: the decoder accepts others, and those are kept as they are. */
  lemma PublicTextSharesKeyIffCanonical(machineID: Bytes, text: Bytes, raw: Bytes)
    requires !Blank(machineID) && RawFor(machineID, raw)
    requires DecodePublicApprovalID(machineID, text) == Some(raw)
    ensures ApprovalKey(machineID, text) == ApprovalKey(machineID, raw)
       <==> TrimSpace(text) == Joined(APPROVAL_PREFIX, machineID, raw)
  {
    TrimSpaceIdempotent(text);
    ApprovalIDRoundTrip(machineID, raw);
  }

  const SECOND_SPELLING: Bytes := ['a', 'p', 'r', '.', 'b', 'Q', '.', 'Q', 'R']

  lemma SecondSpellingSplits()
    ensures Trimmed(SECOND_SPELLING)
    ensures Split(SECOND_SPELLING, '.') == [APPROVAL_PREFIX, ['b', 'Q'], ['Q', 'R']]
  {
    var machinePart, requestPart: Bytes := ['b', 'Q'], ['Q', 'R'];
    VisibleEndsAreTrimmed(SECOND_SPELLING);
    assert SECOND_SPELLING == APPROVAL_PREFIX + ['.'] + machinePart + ['.'] + requestPart;
    SplitThree(APPROVAL_PREFIX, machinePart, requestPart, '.');
  }

  lemma SecondSpellingDecodes()
    ensures DecodePublicApprovalID(['m'], SECOND_SPELLING) == Some(['A'])
    ensures Trimmed(SECOND_SPELLING)
  {
    SecondSpellingSplits();
    Base64Url.SampleEncodings();
    Base64Url.RoundTrip(['m']);
    Base64Url.DecodingIsNotInjective();
    VisibleEndsAreTrimmed(['A']);
  }

  /** Such a text exists: the request "A" of machine "m" has a second public spelling,
      "apr.bQ.QR", which the gateway files under a second key. */
  lemma SecondSpellingHasSecondKey()
    ensures DecodePublicApprovalID(['m'], SECOND_SPELLING) == Some(['A'])
    ensures ApprovalKey(['m'], SECOND_SPELLING) != ApprovalKey(['m'], ['A'])
  {
    SecondSpellingDecodes();
    Base64Url.SampleEncodings();
    VisibleEndsAreTrimmed(['m']);
    VisibleEndsAreTrimmed(['A']);
    SplitWhole(['A'], '.');
    assert RawFor(['m'], ['A']);
    assert Joined(APPROVAL_PREFIX, ['m'], ['A'])[8] == 'Q';
    PublicTextSharesKeyIffCanonical(['m'], SECOND_SPELLING, ['A']);
  }
}
