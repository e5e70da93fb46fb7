/** The in-memory session registry of the verification server: a global array of
    session records, with creation, first-match lookup, removal by position, the
    periodic clean-up filter and the read-only listing. The registry is modelled as
    an immutable sequence; every operation returns the new sequence. */
module Registry {
  import opened Values

  datatype Status = Pending | Verified

  /** One verification session. `createdAt` is a timestamp in milliseconds. */
  datatype Session = Session(id: string, phone: string, url: string, status: Status,
                             secret: string, createdAt: int)

  type Sessions = seq<Session>

  /** The result of a registry operation: the registry afterwards and what is answered. */
  datatype Stepped<T> = Stepped(sessions: Sessions, reply: T)

  /** Sessions older than this are evicted by the clean-up (one hour, in ms). */
  const MaxSessionAgeMs: int := 60 * 60 * 1000

  /** The clean-up runs on a timer with this period (thirty minutes, in ms). */
  const CleanupPeriodMs: int := 30 * 60 * 1000

  /** The shortest phone number accepted at creation. */
  const MinPhoneLength: nat := 8

  // ---------------------------------------------------------------------------
  // Lookup

  /** What a lookup searches for: the first session with a phone, or with an id. */
  datatype Key = PhoneKey(phone: string) | IdKey(id: string)

  predicate Matches(s: Session, k: Key)
  {
    match k
    case PhoneKey(p) => s.phone == p
    case IdKey(i) => s.id == i
  }

  predicate AnyMatch(sessions: Sessions, k: Key)
  {
    exists i :: 0 <= i < |sessions| && Matches(sessions[i], k)
  }

  predicate IsFirstMatch(sessions: Sessions, k: Key, i: int)
  {
    && 0 <= i < |sessions|
    && Matches(sessions[i], k)
    && forall j :: 0 <= j < i ==> !Matches(sessions[j], k)
  }

  /** `Array.prototype.find` / `findIndex`: the position of the first session
      matching `k`, or None when there is none. */
  function FindFirst(sessions: Sessions, k: Key): (r: Option<nat>)
    ensures r.None? <==> !AnyMatch(sessions, k)
    ensures r.Some? ==> IsFirstMatch(sessions, k, r.value)
    decreases |sessions|
  {
    if |sessions| == 0 then None
    else if Matches(sessions[0], k) then Some(0)
    else
      match FindFirst(sessions[1..], k)
      case None => None
      case Some(i) => Some(i + 1)
  }

  /** Only one position can be the first match. */
  lemma FirstMatchUnique(sessions: Sessions, k: Key, i: int, j: int)
    requires IsFirstMatch(sessions, k, i) && IsFirstMatch(sessions, k, j)
    ensures i == j
  {
  }

  /** The lookup finds the first match wherever it is. */
  lemma FindFirstFinds(sessions: Sessions, k: Key)
    ensures forall i :: IsFirstMatch(sessions, k, i) ==> FindFirst(sessions, k) == Some(i)
  {
    forall i | IsFirstMatch(sessions, k, i)
      ensures FindFirst(sessions, k) == Some(i)
    {
      assert AnyMatch(sessions, k);
      FirstMatchUnique(sessions, k, FindFirst(sessions, k).value, i);
    }
  }

  /** `splice(i, 1)`: the registry without the record at position `i`. */
  function RemoveAt(sessions: Sessions, i: nat): (r: Sessions)
    requires i < |sessions|
    ensures |r| == |sessions| - 1
    ensures forall j :: 0 <= j < i ==> r[j] == sessions[j]
    ensures forall j :: i <= j < |r| ==> r[j] == sessions[j + 1]
  {
    sessions[..i] + sessions[i + 1..]
  }

  // ---------------------------------------------------------------------------
  // Invariants of every reachable registry

  predicate UniqueIds(sessions: Sessions)
  {
    forall i, j :: 0 <= i < j < |sessions| ==> sessions[i].id != sessions[j].id
  }

  predicate FreshId(sessions: Sessions, id: string)
  {
    forall i :: 0 <= i < |sessions| ==> sessions[i].id != id
  }

  /** A verified record never stays in the registry: the verify handler removes it at once. */
  predicate AllPending(sessions: Sessions)
  {
    forall i :: 0 <= i < |sessions| ==> sessions[i].status == Pending
  }

  predicate WellFormed(sessions: Sessions)
  {
    UniqueIds(sessions) && AllPending(sessions)
  }

  /** Removing one record keeps a registry well formed. */
  lemma RemoveAtPreservesWellFormed(sessions: Sessions, i: nat)
    requires WellFormed(sessions) && i < |sessions|
    ensures WellFormed(RemoveAt(sessions, i))
  {
    var r := RemoveAt(sessions, i);
    forall a, b | 0 <= a < b < |r|
      ensures r[a].id != r[b].id
    {
      var a' := if a < i then a else a + 1;
      var b' := if b < i then b else b + 1;
      assert r[a] == sessions[a'] && r[b] == sessions[b'];
    }
  }

  /** With unique ids, looking a record up by its own id finds that record. */
  lemma FindOwnId(sessions: Sessions, i: nat)
    requires UniqueIds(sessions) && i < |sessions|
    ensures FindFirst(sessions, IdKey(sessions[i].id)) == Some(i)
  {
    assert IsFirstMatch(sessions, IdKey(sessions[i].id), i);
    FindFirstFinds(sessions, IdKey(sessions[i].id));
  }

  // ---------------------------------------------------------------------------
  // Creation (POST /session)

  /** The body of a creation request; a field may be missing. */
  datatype CreateRequest = CreateRequest(phone: Option<string>, url: Option<string>, secret: Option<string>)

  datatype CreateError = MissingFields | InvalidPhoneFormat | InvalidUrlFormat

  /** The answer to a creation request: the new id, or a 400 with the reason. */
  datatype CreateReply = Created(id: string) | BadRequest(error: CreateError)

  /** The phone format check: it must start with '+' and be at least 8 characters long. */
  predicate PhoneFormatOk(phone: string)
  {
    |phone| > 0 && phone[0] == '+' && |phone| >= MinPhoneLength
  }

  predicate AllFieldsGiven(req: CreateRequest)
  {
    Truthy(req.phone) && Truthy(req.url) && Truthy(req.secret)
  }

  /** The record a successful creation appends. */
  function NewSession(req: CreateRequest, freshId: string, now: int): Session
    requires AllFieldsGiven(req)
  {
    Session(freshId, req.phone.value, req.url.value, Pending, req.secret.value, now)
  }

  /** Create a pending session. `urlParses` stands for the `new URL(url)` check,
      `freshId` for the generated UUID and `now` for the clock. */
  function Create(sessions: Sessions, req: CreateRequest, urlParses: string -> bool,
                  freshId: string, now: int): (r: Stepped<CreateReply>)
    // any missing or empty field is rejected first
    ensures !AllFieldsGiven(req) ==> r.reply == BadRequest(MissingFields)
    // with all fields present, the phone is rejected exactly when its format is wrong
    ensures AllFieldsGiven(req) ==>
              (r.reply == BadRequest(InvalidPhoneFormat) <==> !PhoneFormatOk(req.phone.value))
    ensures r.reply == BadRequest(InvalidUrlFormat) <==>
              AllFieldsGiven(req) && PhoneFormatOk(req.phone.value) && !urlParses(req.url.value)
    // a request is accepted exactly when it passes every check
    ensures r.reply.Created? <==>
              AllFieldsGiven(req) && PhoneFormatOk(req.phone.value) && urlParses(req.url.value)
    // a rejection leaves the registry alone
    ensures r.reply.BadRequest? ==> r.sessions == sessions
    // a success appends exactly one pending record and keeps every earlier one in place
    ensures r.reply.Created? ==>
              && AllFieldsGiven(req)
              && r.reply.id == freshId
              && |r.sessions| == |sessions| + 1
              && r.sessions[..|sessions|] == sessions
              && r.sessions[|sessions|] == Session(freshId, req.phone.value, req.url.value,
                                                   Pending, req.secret.value, now)
  {
    if !AllFieldsGiven(req) then Stepped(sessions, BadRequest(MissingFields))
    else if !(|req.phone.value| > 0 && req.phone.value[0] == '+') || |req.phone.value| < MinPhoneLength then
      Stepped(sessions, BadRequest(InvalidPhoneFormat))
    else if !urlParses(req.url.value) then Stepped(sessions, BadRequest(InvalidUrlFormat))
    else Stepped(sessions + [NewSession(req, freshId, now)], Created(freshId))
  }

  /** Creation with a fresh id keeps the registry well formed. */
  lemma CreatePreservesWellFormed(sessions: Sessions, req: CreateRequest, urlParses: string -> bool,
                                  freshId: string, now: int)
    requires WellFormed(sessions) && FreshId(sessions, freshId)
    ensures WellFormed(Create(sessions, req, urlParses, freshId, now).sessions)
  {
    var r := Create(sessions, req, urlParses, freshId, now);
    if r.reply.Created? {
      var s' := r.sessions;
      forall i, j | 0 <= i < j < |s'|
        ensures s'[i].id != s'[j].id
      {
        if j < |sessions| {
          assert s'[i] == sessions[i] && s'[j] == sessions[j];
        } else {
          assert s'[i] == sessions[i];
        }
      }
    }
  }

  // ---------------------------------------------------------------------------
  // Clean-up (the timer-driven janitor)

  /** A record survives the clean-up at `now` when it is not verified and was
      created less than an hour ago. */
  predicate Survives(s: Session, now: int)
  {
    s.status != Verified && s.createdAt > now - MaxSessionAgeMs
  }

  /** `sessions.filter(...)`: the records that survive, in their original order. */
  function Cleanup(sessions: Sessions, now: int): (r: Sessions)
    ensures |r| <= |sessions|
    ensures forall s :: s in r <==> s in sessions && Survives(s, now)
    decreases |sessions|
  {
    if |sessions| == 0 then []
    else
      var rest := Cleanup(sessions[1..], now);
      if Survives(sessions[0], now) then [sessions[0]] + rest else rest
  }

  /** The clean-up filters each part of a registry on its own: the survivors keep
      their relative order. */
  lemma {:induction false} CleanupAppend(a: Sessions, b: Sessions, now: int)
    ensures Cleanup(a + b, now) == Cleanup(a, now) + Cleanup(b, now)
    decreases |a|
  {
    if |a| == 0 {
      assert a + b == b;
    } else {
      assert (a + b)[1..] == a[1..] + b;
      CleanupAppend(a[1..], b, now);
    }
  }

  /** When every record survives, the clean-up changes nothing. */
  lemma {:induction false} CleanupKeepsSurvivors(sessions: Sessions, now: int)
    requires forall i :: 0 <= i < |sessions| ==> Survives(sessions[i], now)
    ensures Cleanup(sessions, now) == sessions
    decreases |sessions|
  {
    if |sessions| > 0 {
      CleanupKeepsSurvivors(sessions[1..], now);
      assert [sessions[0]] + sessions[1..] == sessions;
    }
  }

  /** A clean-up at a later time subsumes an earlier one; at the same time it is idempotent. */
  lemma {:induction false} CleanupLaterSubsumes(sessions: Sessions, t1: int, t2: int)
    requires t1 <= t2
    ensures Cleanup(Cleanup(sessions, t1), t2) == Cleanup(sessions, t2)
    decreases |sessions|
  {
    if |sessions| > 0 {
      CleanupLaterSubsumes(sessions[1..], t1, t2);
      var rest := Cleanup(sessions[1..], t1);
      if Survives(sessions[0], t1) {
        CleanupAppend([sessions[0]], rest, t2);
        assert Cleanup([sessions[0]], t2) == (if Survives(sessions[0], t2) then [sessions[0]] else []) by {
          assert [sessions[0]][1..] == [];
        }
      }
    }
  }

  lemma CleanupIdempotent(sessions: Sessions, now: int)
    ensures Cleanup(Cleanup(sessions, now), now) == Cleanup(sessions, now)
  {
    CleanupLaterSubsumes(sessions, now, now);
  }

  /** The clean-up keeps a registry well formed. */
  lemma {:induction false} CleanupPreservesWellFormed(sessions: Sessions, now: int)
    requires WellFormed(sessions)
    ensures WellFormed(Cleanup(sessions, now))
    decreases |sessions|
  {
    if |sessions| > 0 {
      CleanupPreservesWellFormed(sessions[1..], now);
      var rest := Cleanup(sessions[1..], now);
      if Survives(sessions[0], now) {
        var r := [sessions[0]] + rest;
        forall i, j | 0 <= i < j < |r|
          ensures r[i].id != r[j].id
        {
          if i == 0 {
            assert r[j] in sessions[1..];
          }
        }
      }
    }
  }

  /** A pending session stays in the registry for strictly less than an hour of
      clean-ups: one created at `t0` survives a clean-up at `now` exactly when
      `now < t0 + 1h`; so it is present at t0 + 59 min and gone at t0 + 61 min. */
  lemma EvictionWindow(sessions: Sessions, i: nat, now: int)
    requires i < |sessions| && sessions[i].status == Pending
    ensures sessions[i] in Cleanup(sessions, now) <==> now < sessions[i].createdAt + MaxSessionAgeMs
    ensures sessions[i] in Cleanup(sessions, sessions[i].createdAt + 59 * 60 * 1000)
    ensures sessions[i] !in Cleanup(sessions, sessions[i].createdAt + 61 * 60 * 1000)
  {
  }

  // ---------------------------------------------------------------------------
  // Listing (GET /sessions)

  /** The public part of a session: the url and the secret are not listed. */
  datatype Summary = Summary(id: string, phone: string, status: Status, createdAt: int)

  function Summarize(s: Session): Summary
  {
    Summary(s.id, s.phone, s.status, s.createdAt)
  }

  function ListSessions(sessions: Sessions): (r: seq<Summary>)
    ensures |r| == |sessions|
    ensures forall i :: 0 <= i < |r| ==>
              r[i].id == sessions[i].id && r[i].phone == sessions[i].phone
              && r[i].status == sessions[i].status && r[i].createdAt == sessions[i].createdAt
  {
    seq(|sessions|, i requires 0 <= i < |sessions| => Summarize(sessions[i]))
  }

  /** Two registries that differ only in urls and secrets list the same way: the
      listing reveals neither. */
  lemma ListingHidesCredentials(a: Sessions, b: Sessions)
    requires |a| == |b|
    requires forall i :: 0 <= i < |a| ==>
               a[i].(url := b[i].url, secret := b[i].secret) == b[i]
    ensures ListSessions(a) == ListSessions(b)
  {
    var la, lb := ListSessions(a), ListSessions(b);
    forall i | 0 <= i < |la|
      ensures la[i] == lb[i]
    {
      assert a[i].(url := b[i].url, secret := b[i].secret) == b[i];
    }
  }

  /** After a successful creation the listing gains exactly the new summary at its end. */
  lemma ListingAfterCreate(sessions: Sessions, req: CreateRequest, urlParses: string -> bool,
                           freshId: string, now: int)
    requires Create(sessions, req, urlParses, freshId, now).reply.Created?
    ensures ListSessions(Create(sessions, req, urlParses, freshId, now).sessions)
            == ListSessions(sessions) + [Summary(freshId, req.phone.value, Pending, now)]
  {
  }
}
