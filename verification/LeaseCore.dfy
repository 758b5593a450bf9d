/** The recovery lease and the check every reader of its published deadline makes
    (tools/forge_recovery_lease.py, tools/forge_recovery_deadline.py:18-43).

    Times are exact reals; a sample of the clock is an input.
 */
module LeaseCore {
  import opened Wrappers

  const HARD_LIFE: real := 86400.0
  const LONGEST: real := 300.0
  const MAX_SEQUENCE: int := 0x1f_ffff_ffff_ffff

  datatype Session = Session(nonce: string, bootId: string, owner: string)

  datatype Lease = Lease(session: Session, started: real, sampled: real, deadline: real, sequence: int,
                         lastSeconds: int)

  datatype Request = Request(schema: int, purpose: string, session: Session, sequence: int, seconds: int)

  datatype Receipt = Receipt(session: Session, sequence: int, deadline: real, hard: real,
                             rootWrite: bool, bootRelease: bool)

  datatype Error = Expired | Unbound | BadNumbers | OutOfOrder

  function Least(a: real, b: real): real {
    if a < b then a else b
  }

  function Most(a: real, b: real): real {
    if a < b then b else a
  }

  function Start(session: Session, now: real): Lease
    requires now >= 0.0
  {
    Lease(session, now, now, now + LONGEST, 0, 0)
  }

  predicate Live(l: Lease, now: real) {
    now >= 0.0 && l.sampled <= now < l.deadline && now < l.started + HARD_LIFE
  }

  function Renew(l: Lease, r: Request, now: real): Result<Lease, Error> {
    if !Live(l, now) then Err(Expired)
    else if r.schema != 1 || r.purpose != "offline-backup" || r.session != l.session then Err(Unbound)
    else if !(1 <= r.sequence <= MAX_SEQUENCE) || !(1 <= r.seconds <= 300) then Err(BadNumbers)
    else if r.sequence == l.sequence && r.seconds == l.lastSeconds then Ok(l.(sampled := now))
    else if r.sequence != l.sequence + 1 then Err(OutOfOrder)
    else Ok(l.(sampled := now, sequence := r.sequence, lastSeconds := r.seconds,
               deadline := Least(l.started + HARD_LIFE, Most(l.deadline, now + r.seconds as real))))
  }

  function ReceiptOf(l: Lease): Receipt {
    Receipt(l.session, l.sequence, l.deadline, l.started + HARD_LIFE, false, false)
  }

  /** The check of a published snapshot against the last one accepted. */
  predicate Acceptable(previous: Lease, candidate: Lease, now: real) {
    && candidate.started >= 0.0 && candidate.sampled >= 0.0 && candidate.deadline >= 0.0
    && Live(candidate, now)
    && candidate.session == previous.session && candidate.started == previous.started
    && 0 <= candidate.sequence <= MAX_SEQUENCE && 0 <= candidate.lastSeconds <= 300
    && candidate.started <= candidate.sampled < candidate.deadline
    && previous.sampled <= candidate.sampled <= now
    && previous.deadline <= candidate.deadline <= candidate.started + HARD_LIFE
    && candidate.deadline <= candidate.sampled + LONGEST
    && (if candidate.sequence == previous.sequence
        then candidate.deadline == previous.deadline && candidate.lastSeconds == previous.lastSeconds
        else candidate.sequence > previous.sequence && candidate.sampled < previous.deadline
             && candidate.lastSeconds != 0)
  }

  // ----- Chains of renewals -----

  /** `b` is what some request made of `a` at time `b.sampled`. */
  predicate Follows(a: Lease, b: Lease) {
    && b.session == a.session && b.started == a.started && Live(a, b.sampled)
    && (|| (b.sequence == a.sequence && b.lastSeconds == a.lastSeconds && b.deadline == a.deadline)
        || (&& b.sequence == a.sequence + 1 && 1 <= b.sequence <= MAX_SEQUENCE && 1 <= b.lastSeconds <= 300
            && b.deadline == Least(a.started + HARD_LIFE, Most(a.deadline, b.sampled + b.lastSeconds as real))))
  }

  lemma RenewFollows(a: Lease, r: Request, now: real)
    requires Renew(a, r, now).Ok?
    ensures Follows(a, Renew(a, r, now).value) && Renew(a, r, now).value.sampled == now
  {
  }

  /** What every lease built by starting and renewing satisfies. */
  predicate Sound(l: Lease) {
    && 0.0 <= l.started <= l.sampled < l.deadline <= l.started + HARD_LIFE && l.deadline <= l.sampled + LONGEST
    && 0 <= l.sequence <= MAX_SEQUENCE && 0 <= l.lastSeconds <= 300 && (l.lastSeconds == 0 <==> l.sequence == 0)
  }

  /** Renewal by renewal from a fresh start. */
  predicate IsChain(c: seq<Lease>) {
    && c != [] && c[0].started >= 0.0 && c[0] == Start(c[0].session, c[0].started)
    && forall k :: 0 < k < |c| ==> Follows(c[k - 1], c[k])
  }

  lemma FollowsSound(a: Lease, b: Lease)
    requires Sound(a) && Follows(a, b)
    ensures Sound(b)
  {
  }

  lemma {:induction false} ChainSound(c: seq<Lease>, k: nat)
    requires IsChain(c) && k < |c|
    ensures Sound(c[k])
    decreases k
  {
    if k > 0 {
      ChainSound(c, k - 1);
      FollowsSound(c[k - 1], c[k]);
    }
  }

  /** What later members keep of earlier ones. */
  predicate Descends(a: Lease, b: Lease) {
    && b.session == a.session && b.started == a.started
    && a.sampled <= b.sampled && a.deadline <= b.deadline && a.sequence <= b.sequence
    && (a.sequence == b.sequence ==> a.deadline == b.deadline && a.lastSeconds == b.lastSeconds)
  }

  lemma DescendsStep(a: Lease, b: Lease, c: Lease)
    requires Sound(b) && Descends(a, b) && Follows(b, c)
    ensures Descends(a, c)
  {
  }

  lemma {:induction false} ChainDescends(c: seq<Lease>, i: nat, j: nat)
    requires IsChain(c) && i <= j < |c|
    ensures Descends(c[i], c[j])
    decreases j
  {
    if i < j {
      ChainDescends(c, i, j - 1);
      ChainSound(c, j - 1);
      DescendsStep(c[i], c[j - 1], c[j]);
    }
  }

  /** A reader that accepted member `i` and next sees member `j`, having missed any number in
      between, accepts it exactly when it is unexpired and was not sampled too late for `i`. */
  lemma SkippedPublications(c: seq<Lease>, i: nat, j: nat, now: real)
    requires IsChain(c) && i <= j < |c|
    ensures Acceptable(c[i], c[j], now)
       <==> Live(c[j], now) && (c[j].sequence == c[i].sequence || c[j].sampled < c[i].deadline)
  {
    ChainDescends(c, i, j);
    ChainSound(c, i);
    ChainSound(c, j);
  }

  /** So the publisher, which has seen every member, refuses a renewal only if it has expired. */
  lemma PublisherAccepts(c: seq<Lease>, r: Request, now: real, later: real)
    requires IsChain(c) && Renew(c[|c| - 1], r, now).Ok?
    ensures var next := Renew(c[|c| - 1], r, now).value;
      IsChain(c + [next]) && (Acceptable(c[|c| - 1], next, later) <==> Live(next, later))
  {
    var next := Renew(c[|c| - 1], r, now).value;
    var d := c + [next];
    RenewFollows(c[|c| - 1], r, now);
    forall k | 0 < k < |d| ensures Follows(d[k - 1], d[k]) {
      assert k < |c| ==> d[k] == c[k] && d[k - 1] == c[k - 1];
    }
    SkippedPublications(d, |c| - 1, |c|, later);
  }

  /** A request is granted if the lease lives, it is bound to the session, and it is either the last
      one again or the next one; only the next one moves anything but the sample. */
  lemma GrantedIff(l: Lease, r: Request, now: real)
    requires Sound(l)
    ensures var again := r.sequence == l.sequence && r.seconds == l.lastSeconds;
      var next := r.sequence == l.sequence + 1;
      && (Renew(l, r, now).Ok? <==>
            && Live(l, now) && r.schema == 1 && r.purpose == "offline-backup" && r.session == l.session
            && 1 <= r.sequence <= 9007199254740991 && 1 <= r.seconds <= 300 && (again || next))
      && (Renew(l, r, now).Ok? ==>
            var n := Renew(l, r, now).value;
            && n.session == l.session && n.started == l.started && n.sampled == now
            && n.sequence == r.sequence && n.lastSeconds == r.seconds
            && if again then n.deadline == l.deadline else Extended(l, now + r.seconds as real, n.deadline))
  {
  }

  /** The deadline is at least what it was and what is asked for, but never past the hard end. */
  predicate Extended(l: Lease, asked: real, deadline: real) {
    var hard := l.started + 86400.0;
    && l.deadline <= deadline <= hard && (deadline >= asked || deadline == hard)
    && (deadline == l.deadline || deadline == asked || deadline == hard)
  }

  // ----- When a deadline was set -----

  /** The first member with a given sequence, searched from the front. */
  function FirstWith(c: seq<Lease>, sequence: int, from: nat): (k: nat)
    requires from < |c| && exists k :: from <= k < |c| && c[k].sequence == sequence
    ensures from <= k < |c| && c[k].sequence == sequence && forall i :: from <= i < k ==> c[i].sequence != sequence
    decreases |c| - from
  {
    if c[from].sequence == sequence then from else FirstWith(c, sequence, from + 1)
  }

  /** When the last new sequence was granted: the sample of the first member with it. */
  function GrantedAt(c: seq<Lease>, k: nat): real
    requires k < |c|
  {
    c[FirstWith(c, c[k].sequence, 0)].sampled
  }

  /** Only a new sequence moves the deadline, and never beyond 300 seconds after it was granted or
      a day after the start: duplicates buy no time. */
  lemma DeadlineFromGrant(c: seq<Lease>, k: nat)
    requires IsChain(c) && k < |c|
    ensures var g := FirstWith(c, c[k].sequence, 0);
      c[k].deadline == c[g].deadline
      && c[k].deadline <= Least(GrantedAt(c, k) + LONGEST, c[0].started + HARD_LIFE)
  {
    var g := FirstWith(c, c[k].sequence, 0);
    assert g <= k;
    ChainDescends(c, g, k);
    ChainDescends(c, 0, g);
    ChainSound(c, g);
  }
}
