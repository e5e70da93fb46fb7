/** The three voice-gateway handlers as transitions of the session registry.
    Each handler takes the registry and the request fields and yields the registry
    afterwards together with a directive for the gateway. The outbound verification
    callback of the verify handler is a parameter: the outcome the merchant endpoint
    produced. */
module CallFlow {
  import opened Values
  import opened Registry

  /** The spoken messages, by what they say. */
  datatype Prompt =
    | NoActiveTransaction   // no payment is pending for the calling number
    | Welcome               // greeting and request to key in the PIN ending with '#'
    | CodeAccepted          // the code was correct, the transaction is being finalised
    | CodeRejected          // the code was wrong, key it in again
    | VerificationFailed    // an error occurred during verification
    | PinTimedOut           // the time for keying in the PIN ran out, goodbye

  /** The parameters of a keypad-capture verb. */
  datatype Gather = Gather(action: string, httpMethod: string, timeoutSeconds: nat,
                           finishOnKey: string, actionOnEmptyResult: string)

  /** Every capture in the call flow posts to /verify, waits 30 seconds, ends on '#'
      and goes to /timeout when nothing was keyed in. */
  const PinCapture := Gather("/verify", "POST", 30, "#", "/timeout")

  /** What a handler answers: speak a prompt, speak a prompt and capture digits, or an HTTP error. */
  datatype Directive =
    | Say(prompt: Prompt)
    | SayThenGather(prompt: Prompt, gather: Gather)
    | HttpError(status: nat, body: string)

  /** What the merchant endpoint produced: an HTTP status, or a transport failure
      (connection error or the 10-second timeout). */
  datatype CallbackOutcome = Responded(status: int) | TransportError

  const CallbackTimeoutMs: nat := 10000

  /** The outbound request: the session record plus the code, posted to the session's url. */
  datatype CallbackRequest = CallbackRequest(url: string, session: Session, code: string, timeoutMs: nat)

  /** The part of the verify handler before the callback: either an immediate
      answer, or a callback to make. */
  datatype VerifyStart = Answer(directive: Directive) | Call(request: CallbackRequest)

  // ---------------------------------------------------------------------------
  // POST /voice

  function Voice(sessions: Sessions, from: Option<string>): (r: Stepped<Directive>)
    ensures r.sessions == sessions
    ensures !Truthy(from) ==> r.reply.HttpError? && r.reply.status == 400
    ensures Truthy(from) && !AnyMatch(sessions, PhoneKey(from.value)) ==> r.reply == Say(NoActiveTransaction)
    ensures Truthy(from) && AnyMatch(sessions, PhoneKey(from.value)) ==> r.reply == SayThenGather(Welcome, PinCapture)
  {
    if !Truthy(from) then Stepped(sessions, HttpError(400, "Missing From parameter"))
    else
      match FindFirst(sessions, PhoneKey(from.value))
      case None => Stepped(sessions, Say(NoActiveTransaction))
      case Some(_) => Stepped(sessions, SayThenGather(Welcome, PinCapture))
  }

  // ---------------------------------------------------------------------------
  // POST /verify

  /** The guards and the lookup; on success the callback request, carrying the
      keyed-in digits exactly as received. */
  function BeginVerify(sessions: Sessions, from: Option<string>, digits: Option<string>): (r: VerifyStart)
    ensures !Truthy(from) || !Truthy(digits) ==> r == Answer(HttpError(400, "Missing From or Digits parameter"))
    ensures Truthy(from) && Truthy(digits) && !AnyMatch(sessions, PhoneKey(from.value)) ==>
              r == Answer(HttpError(404, "Session not found"))
    ensures forall i :: Truthy(from) && Truthy(digits) && IsFirstMatch(sessions, PhoneKey(from.value), i) ==>
              r == Call(CallbackRequest(sessions[i].url, sessions[i], digits.value, CallbackTimeoutMs))
  {
    FindFirstFinds(sessions, PhoneKey(if from.Some? then from.value else ""));
    if !Truthy(from) || !Truthy(digits) then Answer(HttpError(400, "Missing From or Digits parameter"))
    else
      match FindFirst(sessions, PhoneKey(from.value))
      case None => Answer(HttpError(404, "Session not found"))
      case Some(i) =>
        var s := sessions[i];
        Call(CallbackRequest(s.url, s, digits.value, CallbackTimeoutMs))
  }

  /** The part of the verify handler after the callback returned. `sessions` is the
      registry at that moment, which other requests may have changed meanwhile.
      Status 200 marks the session verified and removes it, if it is still there;
      any other status and any transport failure leave the registry alone and
      capture the code again. */
  function CompleteVerify(sessions: Sessions, session: Session, outcome: CallbackOutcome): (r: Stepped<Directive>)
    ensures outcome == Responded(200) ==> r.reply == Say(CodeAccepted)
    ensures outcome == Responded(200) && !AnyMatch(sessions, IdKey(session.id)) ==> r.sessions == sessions
    ensures outcome == Responded(200) && AnyMatch(sessions, IdKey(session.id)) ==>
              exists i :: IsFirstMatch(sessions, IdKey(session.id), i) && r.sessions == RemoveAt(sessions, i)
    ensures outcome.Responded? && outcome.status != 200 ==>
              r == Stepped(sessions, SayThenGather(CodeRejected, PinCapture))
    ensures outcome.TransportError? ==> r == Stepped(sessions, SayThenGather(VerificationFailed, PinCapture))
  {
    match outcome
    case Responded(status) =>
      if status == 200 then
        match FindFirst(sessions, IdKey(session.id))
        case Some(i) => Stepped(RemoveAt(sessions, i), Say(CodeAccepted))
        case None => Stepped(sessions, Say(CodeAccepted))
      else Stepped(sessions, SayThenGather(CodeRejected, PinCapture))
    case TransportError => Stepped(sessions, SayThenGather(VerificationFailed, PinCapture))
  }

  /** The whole verify handler as one atomic step: nothing changes the registry
      while the callback is outstanding. */
  function Verify(sessions: Sessions, from: Option<string>, digits: Option<string>,
                  outcome: CallbackOutcome): (r: Stepped<Directive>)
    ensures !Truthy(from) || !Truthy(digits) ==>
              r == Stepped(sessions, HttpError(400, "Missing From or Digits parameter"))
    ensures Truthy(from) && Truthy(digits) && !AnyMatch(sessions, PhoneKey(from.value)) ==>
              r == Stepped(sessions, HttpError(404, "Session not found"))
    ensures Truthy(from) && Truthy(digits) && AnyMatch(sessions, PhoneKey(from.value)) && outcome == Responded(200) ==>
              r.reply == Say(CodeAccepted) && |r.sessions| == |sessions| - 1
    // the session the call is about is the one the callback completes
    ensures forall i :: Truthy(from) && Truthy(digits) && IsFirstMatch(sessions, PhoneKey(from.value), i) ==>
              r == CompleteVerify(sessions, sessions[i], outcome)
    // on 200 the record removed is the first one carrying that session's id; the others keep their order
    ensures forall i :: Truthy(from) && Truthy(digits) && IsFirstMatch(sessions, PhoneKey(from.value), i)
                        && outcome == Responded(200) ==>
              exists j :: IsFirstMatch(sessions, IdKey(sessions[i].id), j) && r.sessions == RemoveAt(sessions, j)
    ensures Truthy(from) && Truthy(digits) && AnyMatch(sessions, PhoneKey(from.value)) && outcome.Responded?
            && outcome.status != 200 ==>
              r == Stepped(sessions, SayThenGather(CodeRejected, PinCapture))
    ensures Truthy(from) && Truthy(digits) && AnyMatch(sessions, PhoneKey(from.value)) && outcome.TransportError? ==>
              r == Stepped(sessions, SayThenGather(VerificationFailed, PinCapture))
  {
    match BeginVerify(sessions, from, digits)
    case Answer(d) => Stepped(sessions, d)
    case Call(request) => CompleteVerify(sessions, request.session, outcome)
  }

  /** A successful verification removes exactly the session the call is about and
      keeps every other record, in order. */
  lemma VerifySuccessRemovesSession(sessions: Sessions, from: Option<string>, digits: Option<string>, i: nat)
    requires UniqueIds(sessions)
    requires Truthy(from) && Truthy(digits) && IsFirstMatch(sessions, PhoneKey(from.value), i)
    ensures Verify(sessions, from, digits, Responded(200)) == Stepped(RemoveAt(sessions, i), Say(CodeAccepted))
  {
    FindFirstFinds(sessions, PhoneKey(from.value));
    FindOwnId(sessions, i);
  }

  /** The verify handler never looks at the digits themselves: any two non-empty
      codes lead to the same registry and directive. */
  lemma VerifyIgnoresDigits(sessions: Sessions, from: Option<string>, d1: Option<string>, d2: Option<string>,
                            outcome: CallbackOutcome)
    requires Truthy(d1) && Truthy(d2)
    ensures Verify(sessions, from, d1, outcome) == Verify(sessions, from, d2, outcome)
  {
  }

  /** Completing the same successful verification twice removes one record: the
      second completion finds no record with that id and changes nothing. */
  lemma CompleteVerifyIdempotent(sessions: Sessions, session: Session)
    requires UniqueIds(sessions)
    ensures var once := CompleteVerify(sessions, session, Responded(200)).sessions;
            CompleteVerify(once, session, Responded(200)).sessions == once
  {
    var k := IdKey(session.id);
    var once := CompleteVerify(sessions, session, Responded(200)).sessions;
    match FindFirst(sessions, k)
    case None =>
    case Some(i) =>
      assert once == RemoveAt(sessions, i);
      forall j | 0 <= j < |once|
        ensures !Matches(once[j], k)
      {
        if j < i {
          assert once[j] == sessions[j];
        } else {
          assert once[j] == sessions[j + 1];
        }
      }
  }

  /** Every completion keeps the registry well formed, whatever changed meanwhile. */
  lemma CompleteVerifyPreservesWellFormed(sessions: Sessions, session: Session, outcome: CallbackOutcome)
    requires WellFormed(sessions)
    ensures WellFormed(CompleteVerify(sessions, session, outcome).sessions)
  {
    if outcome == Responded(200) {
      match FindFirst(sessions, IdKey(session.id))
      case None =>
      case Some(i) => RemoveAtPreservesWellFormed(sessions, i);
    }
  }

  lemma VerifyPreservesWellFormed(sessions: Sessions, from: Option<string>, digits: Option<string>,
                                  outcome: CallbackOutcome)
    requires WellFormed(sessions)
    ensures WellFormed(Verify(sessions, from, digits, outcome).sessions)
  {
    match BeginVerify(sessions, from, digits)
    case Answer(_) =>
    case Call(request) => CompleteVerifyPreservesWellFormed(sessions, request.session, outcome);
  }

  // ---------------------------------------------------------------------------
  // POST /timeout

  function Timeout(sessions: Sessions, from: Option<string>): (r: Stepped<Directive>)
    ensures r.sessions == sessions
    ensures !Truthy(from) ==> r.reply == HttpError(400, "Missing From parameter")
    ensures Truthy(from) && !AnyMatch(sessions, PhoneKey(from.value)) ==> r.reply == HttpError(404, "Session not found")
    ensures Truthy(from) && AnyMatch(sessions, PhoneKey(from.value)) ==> r.reply == Say(PinTimedOut)
  {
    if !Truthy(from) then Stepped(sessions, HttpError(400, "Missing From parameter"))
    else
      match FindFirst(sessions, PhoneKey(from.value))
      case None => Stepped(sessions, HttpError(404, "Session not found"))
      case Some(_) => Stepped(sessions, Say(PinTimedOut))
  }

  // ---------------------------------------------------------------------------
  // Whole-flow properties

  /** The timeout handler answers for exactly the calls the voice handler
      welcomed: for a caller with a session it speaks the timeout prompt where the
      voice handler asked for the PIN, and for any other caller neither speaks. */
  lemma TimeoutFollowsVoice(sessions: Sessions, from: Option<string>)
    requires Truthy(from)
    ensures Timeout(sessions, from).reply == Say(PinTimedOut) <==> Voice(sessions, from).reply.SayThenGather?
    ensures Timeout(sessions, from).reply.HttpError? <==> Voice(sessions, from).reply == Say(NoActiveTransaction)
  {
  }

  /** Creating a session for a phone that had none and then verifying it
      successfully gives back the registry as it was before the creation. */
  lemma CreateThenVerifyRestores(sessions: Sessions, req: CreateRequest, urlParses: string -> bool,
                                 freshId: string, now: int, digits: Option<string>)
    requires Create(sessions, req, urlParses, freshId, now).reply.Created?
    requires !AnyMatch(sessions, PhoneKey(req.phone.value))
    requires FreshId(sessions, freshId)
    requires Truthy(digits)
    ensures var created := Create(sessions, req, urlParses, freshId, now).sessions;
            Verify(created, req.phone, digits, Responded(200)) == Stepped(sessions, Say(CodeAccepted))
  {
    var created := Create(sessions, req, urlParses, freshId, now).sessions;
    var n := |sessions|;
    assert IsFirstMatch(created, PhoneKey(req.phone.value), n) by {
      forall j | 0 <= j < n
        ensures created[j].phone != req.phone.value
      {
        assert created[j] == sessions[j];
      }
    }
    FindFirstFinds(created, PhoneKey(req.phone.value));
    assert IsFirstMatch(created, IdKey(freshId), n) by {
      forall j | 0 <= j < n
        ensures created[j].id != freshId
      {
        assert created[j] == sessions[j];
      }
    }
    FindFirstFinds(created, IdKey(freshId));
    assert RemoveAt(created, n) == sessions;
  }

  /** Sequential requests only: once the only session of a phone is verified, a
      later verification is answered 404 and a new call hears that there is no
      active transaction. Overlapping requests do not get this guarantee; see
      OverlappingSuccessesBothAccepted. */
  lemma VerifyAfterSuccessNotFound(sessions: Sessions, from: Option<string>, digits: Option<string>,
                         outcome: CallbackOutcome, i: nat)
    requires UniqueIds(sessions)
    requires Truthy(from) && Truthy(digits) && IsFirstMatch(sessions, PhoneKey(from.value), i)
    requires forall j :: 0 <= j < |sessions| && j != i ==> sessions[j].phone != from.value
    ensures var after := Verify(sessions, from, digits, Responded(200)).sessions;
            && Verify(after, from, digits, outcome) == Stepped(after, HttpError(404, "Session not found"))
            && Voice(after, from).reply == Say(NoActiveTransaction)
  {
    VerifySuccessRemovesSession(sessions, from, digits, i);
    var after := RemoveAt(sessions, i);
    forall j | 0 <= j < |after|
      ensures after[j].phone != from.value
    {
      if j < i {
        assert after[j] == sessions[j];
      } else {
        assert after[j] == sessions[j + 1];
      }
    }
  }

  /** Two verify requests for the same phone that overlap across the callback
      both pass the lookup on the same registry, so the merchant endpoint is
      called twice for one session. When both callbacks answer 200, both callers
      hear that the code was accepted, although only the first completion finds
      and removes the record. */
  lemma OverlappingSuccessesBothAccepted(sessions: Sessions, from: Option<string>,
                                         d1: Option<string>, d2: Option<string>)
    requires WellFormed(sessions)
    requires Truthy(from) && Truthy(d1) && Truthy(d2) && AnyMatch(sessions, PhoneKey(from.value))
    ensures BeginVerify(sessions, from, d1).Call? && BeginVerify(sessions, from, d2).Call?
    ensures BeginVerify(sessions, from, d1).request.session == BeginVerify(sessions, from, d2).request.session
    ensures var session := BeginVerify(sessions, from, d1).request.session;
            var first := CompleteVerify(sessions, session, Responded(200));
            var second := CompleteVerify(first.sessions, session, Responded(200));
            && first.reply == Say(CodeAccepted)
            && second.reply == Say(CodeAccepted)
            && |first.sessions| == |sessions| - 1
            && second.sessions == first.sessions
  {
    var i := FindFirst(sessions, PhoneKey(from.value)).value;
    FindFirstFinds(sessions, PhoneKey(from.value));
    FindOwnId(sessions, i);
    CompleteVerifyIdempotent(sessions, sessions[i]);
  }
}
