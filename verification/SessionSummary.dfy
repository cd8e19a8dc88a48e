/** The session summary that both state stores compute: a counting loop and an ordered switch. */
module SessionSummary {
  import opened Common

  const KNOWN: set<Status> := {Pending, InProgress, Succeeded, Failed, Canceled, TimedOut}

  /** The counters before the loop; a status outside the known six gets a counter when first met. */
  const ZEROES: map<Status, nat> := map[
    Pending := 0, InProgress := 0, Succeeded := 0, Failed := 0, Canceled := 0, TimedOut := 0]

  function CountOf(counts: map<Status, nat>, st: Status): nat {
    if st in counts then counts[st] else 0
  }

  function Tick(counts: map<Status, nat>, st: Status): map<Status, nat> {
    counts[st := CountOf(counts, st) + 1]
  }

  /** The ordered switch. */
  function Switch(counts: map<Status, nat>, total: nat): Status {
    if CountOf(counts, Succeeded) == total then Succeeded
    else if CountOf(counts, Failed) == total then Failed
    else if CountOf(counts, Canceled) == total then Canceled
    else if CountOf(counts, TimedOut) == total then Failed
    else if CountOf(counts, InProgress) > 0 then Pending
    else if CountOf(counts, Pending) > 0 && CountOf(counts, InProgress) == 0 then Pending
    else if CountOf(counts, Pending) == 0 && CountOf(counts, InProgress) == 0 then Succeeded
    else assert false; Pending // the default branch is unreachable
  }

  /** The counters as a bag: what the loop has counted, whatever order it met the statuses in. */
  ghost predicate Counts(counts: map<Status, nat>, bag: multiset<Status>) {
    && counts.Keys == KNOWN + (set st | st in bag)
    && forall st :: st in counts ==> counts[st] == bag[st]
  }

  lemma TickCounts(counts: map<Status, nat>, bag: multiset<Status>, st: Status)
    requires Counts(counts, bag)
    ensures Counts(Tick(counts, st), bag + multiset{st})
  {
    var bag' := bag + multiset{st};
    assert forall x :: x in bag' <==> x in bag || x == st;
    assert (set x | x in bag') == (set x | x in bag) + {st};
  }

  ghost function SessionKeys(status: map<JobSpec, Status>, session: int): set<JobSpec> {
    set js | js in status && js.sessionId == session
  }

  /** The statuses of one session's jobs, as a bag. */
  ghost function StatusesOf(status: map<JobSpec, Status>, session: int): multiset<Status> {
    BagOver(status, SessionKeys(status, session))
  }

  ghost function BagOver(status: map<JobSpec, Status>, keys: set<JobSpec>): (bag: multiset<Status>)
    requires keys <= status.Keys
    ensures |bag| == |keys|
  {
    if keys == {} then multiset{} else
      var js :| js in keys;
      BagOver(status, keys - {js}) + multiset{status[js]}
  }

  lemma {:induction false} BagOverRemove(status: map<JobSpec, Status>, keys: set<JobSpec>, js: JobSpec)
    requires keys <= status.Keys && js in keys
    ensures BagOver(status, keys) == BagOver(status, keys - {js}) + multiset{status[js]}
    decreases |keys|
  {
    var pick :| pick in keys && BagOver(status, keys) == BagOver(status, keys - {pick}) + multiset{status[pick]};
    if pick != js {
      BagOverRemove(status, keys - {pick}, js);
      BagOverRemove(status, keys - {js}, pick);
      assert keys - {pick} - {js} == keys - {js} - {pick};
    }
  }

  lemma BagStart(status: map<JobSpec, Status>, all: set<JobSpec>)
    requires all <= status.Keys
    ensures BagOver(status, all - all) == multiset{}
    ensures BagOver(status, all - {}) == BagOver(status, all)
  {
    assert all - all == {} && all - {} == all;
  }

  /** One more key visited adds its status to the bag of the visited ones. */
  lemma BagNext(status: map<JobSpec, Status>, all: set<JobSpec>, left: set<JobSpec>, js: JobSpec)
    requires left <= all <= status.Keys && js in left
    ensures BagOver(status, all - (left - {js})) == BagOver(status, all - left) + multiset{status[js]}
    ensures |all - (left - {js})| == |all - left| + 1
  {
    BagOverRemove(status, all - (left - {js}), js);
    assert all - (left - {js}) - {js} == all - left;
  }

  lemma {:induction false} BagOverHas(status: map<JobSpec, Status>, keys: set<JobSpec>, st: Status)
    requires keys <= status.Keys
    ensures st in BagOver(status, keys) <==> exists js :: js in keys && status[js] == st
    decreases |keys|
  {
    if js :| js in keys {
      BagOverRemove(status, keys, js);
      BagOverHas(status, keys - {js}, st);
    }
  }

  /** Some listed job has the status exactly when the bag holds it. */
  lemma StatusesOfHas(status: map<JobSpec, Status>, session: int, st: Status)
    ensures st in StatusesOf(status, session)
       <==> exists js :: js in status && js.sessionId == session && status[js] == st
  {
    BagOverHas(status, SessionKeys(status, session), st);
  }

  /** What has been counted once the entries in `left` are still to come. */
  ghost predicate CountedUpTo(
    counts: map<Status, nat>, total: nat, status: map<JobSpec, Status>, session: int, left: set<JobSpec>)
  {
    && left <= status.Keys
    && Counts(counts, BagOver(status, SessionKeys(status, session) - left))
    && total == |SessionKeys(status, session) - left|
  }

  lemma CountNothing(status: map<JobSpec, Status>, session: int)
    ensures CountedUpTo(ZEROES, 0, status, session, status.Keys)
  {
    assert SessionKeys(status, session) - status.Keys == {};
    assert ZEROES.Keys == KNOWN;
  }

  lemma CountAll(counts: map<Status, nat>, total: nat, status: map<JobSpec, Status>, session: int)
    requires CountedUpTo(counts, total, status, session, {})
    ensures Counts(counts, StatusesOf(status, session)) && total == |StatusesOf(status, session)|
  {
    assert SessionKeys(status, session) - {} == SessionKeys(status, session);
  }

  lemma CountNext(
    counts: map<Status, nat>, total: nat, status: map<JobSpec, Status>, session: int, left: set<JobSpec>, js: JobSpec)
    requires CountedUpTo(counts, total, status, session, left) && js in left
    ensures js.sessionId == session ==>
              CountedUpTo(Tick(counts, status[js]), total + 1, status, session, left - {js})
    ensures js.sessionId != session ==> CountedUpTo(counts, total, status, session, left - {js})
  {
    if js.sessionId == session {
      BagNext(status, SessionKeys(status, session), left * SessionKeys(status, session), js);
      assert SessionKeys(status, session) - left * SessionKeys(status, session) == SessionKeys(status, session) - left;
      assert SessionKeys(status, session) - (left * SessionKeys(status, session) - {js})
          == SessionKeys(status, session) - (left - {js});
      TickCounts(counts, BagOver(status, SessionKeys(status, session) - left), status[js]);
    } else {
      assert SessionKeys(status, session) - (left - {js}) == SessionKeys(status, session) - left;
    }
  }

  /** The loop over the status map; the map hands out its entries in an arbitrary order. */
  method CountStatuses(status: map<JobSpec, Status>, session: int)
    returns (counts: map<Status, nat>, total: nat)
    ensures Counts(counts, StatusesOf(status, session))
    ensures total == |StatusesOf(status, session)|
  {
    counts, total := ZEROES, 0;
    var left := status.Keys;
    CountNothing(status, session);
    while left != {}
      invariant CountedUpTo(counts, total, status, session, left)
      decreases |left|
    {
      var js :| js in left;
      CountNext(counts, total, status, session, left, js);
      if js.sessionId == session {
        counts := Tick(counts, status[js]);
        total := total + 1;
      }
      left := left - {js};
    }
    CountAll(counts, total, status, session);
  }

  /** The loop over the rows of a query, whatever order the database returns them in. */
  method CountRows(rows: seq<Status>) returns (counts: map<Status, nat>, total: nat)
    ensures Counts(counts, multiset(rows))
    ensures total == |rows|
  {
    counts, total := ZEROES, 0;
    for i := 0 to |rows|
      invariant Counts(counts, multiset(rows[..i]))
      invariant total == i
    {
      assert rows[..i + 1] == rows[..i] + [rows[i]];
      TickCounts(counts, multiset(rows[..i]), rows[i]);
      counts := Tick(counts, rows[i]);
      total := total + 1;
    }
    assert rows[..|rows|] == rows;
  }

  /** The counters depend only on the bag of statuses: the iteration order is invisible. */
  lemma CountsDetermined(a: map<Status, nat>, b: map<Status, nat>, bag: multiset<Status>)
    requires Counts(a, bag) && Counts(b, bag)
    ensures a == b
  {
    assert a.Keys == b.Keys;
    assert forall st :: st in a.Keys ==> a[st] == b[st];
  }

  ghost function Total(counts: map<Status, nat>): nat
    decreases |counts|
  {
    if counts.Keys == {} then 0 else
      var st :| st in counts.Keys;
      assert (counts - {st}).Keys == counts.Keys - {st};
      counts[st] + Total(counts - {st})
  }

  lemma {:induction false} TotalIsSize(counts: map<Status, nat>, bag: multiset<Status>)
    requires forall st :: st in bag ==> st in counts
    requires forall st :: st in counts ==> counts[st] == bag[st]
    ensures Total(counts) == |bag|
    decreases |counts|
  {
    if counts.Keys == {} {
      assert forall st :: bag[st] == 0;
      assert bag == multiset{};
    } else {
      var st :| st in counts.Keys && Total(counts) == counts[st] + Total(counts - {st});
      var rest := bag[st := 0];
      assert (counts - {st}).Keys == counts.Keys - {st};
      TotalIsSize(counts - {st}, rest);
      assert bag == rest[st := bag[st]];
    }
  }

  /** The counters returned with a summary add up to the number of jobs counted. */
  lemma CountsSumToTotal(counts: map<Status, nat>, bag: multiset<Status>)
    requires Counts(counts, bag)
    ensures Total(counts) == |bag|
  {
    TotalIsSize(counts, bag);
  }

  ghost predicate Only(bag: multiset<Status>, st: Status) {
    forall x :: x in bag ==> x == st
  }

  lemma OnlyIffFull(bag: multiset<Status>, st: Status)
    ensures bag[st] == |bag| <==> Only(bag, st)
  {
    var rest := bag[st := 0];
    assert bag == rest[st := bag[st]];
    assert |bag| == |rest| + bag[st];
    if rest == multiset{} {
      forall x | x in bag ensures x == st {
        assert rest[x] == 0;
      }
    } else {
      var x :| x in rest;
      assert x in bag && x != st;
    }
  }

  ghost predicate Unfinished(bag: multiset<Status>) {
    Pending in bag || InProgress in bag
  }

  /** What each outcome of the switch says about the jobs. */
  lemma OverallMeaning(counts: map<Status, nat>, bag: multiset<Status>)
    requires Counts(counts, bag)
    ensures Switch(counts, |bag|) in {Pending, Succeeded, Failed, Canceled}
    ensures bag == multiset{} ==> Switch(counts, |bag|) == Succeeded
    ensures bag != multiset{} ==> (Switch(counts, |bag|) == Pending <==> Unfinished(bag))
    ensures bag != multiset{} ==> (Switch(counts, |bag|) == Failed <==> Only(bag, Failed) || Only(bag, TimedOut))
    ensures bag != multiset{} ==> (Switch(counts, |bag|) == Canceled <==> Only(bag, Canceled))
  {
    assert forall st :: CountOf(counts, st) == bag[st];
    OnlyIffFull(bag, Succeeded);
    OnlyIffFull(bag, Failed);
    OnlyIffFull(bag, Canceled);
    OnlyIffFull(bag, TimedOut);
    if x :| x in bag {}
  }

  /** The summary of a bag of statuses; both stores return exactly this. */
  ghost function Summary(bag: multiset<Status>): (summary: StatusSummary)
    ensures Counts(summary.counts, bag) && summary.overall == Switch(summary.counts, |bag|)
  {
    var counts := map st | st in KNOWN + (set x | x in bag) :: bag[st];
    StatusSummary(Switch(counts, |bag|), counts)
  }
}
