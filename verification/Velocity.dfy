/** The velocity limit: a sorted set of recent admissions that is trimmed and expires, against the plain
    log of all admissions. One customer and rail, a fixed policy. The clock is read once for a request; the
    store executes each of its commands later, and the key may expire in front of any of them. */
module Velocity {
  import opened Contracts

  // A member of the sorted set: its score, and the size of the set when it was added.
  datatype Member = Member(at: Time, tag: nat)

  // A key without members does not exist, and has no time to live.
  datatype Window = Window(members: set<Member>, expiresAt: Option<Time>)

  const EMPTY_WINDOW := Window({}, None)

  // The clock read of a request, and when the store trims, counts, adds and starts the key's time to live.
  datatype Request = Request(now: Time, trimAt: Time, countAt: Time, addAt: Time, armedAt: Time)

  predicate Expired(w: Window, t: Time) {
    w.expiresAt.Some? && w.expiresAt.value <= t
  }

  // What a command finds at time `t`.
  function Seen(w: Window, t: Time): Window {
    if Expired(w, t) then EMPTY_WINDOW else w
  }

  function Newer(ms: set<Member>, cut: Time): set<Member> {
    set m | m in ms && m.at > cut
  }

  // The scores 0 .. cut are removed. Scores are never negative.
  function Trimmed(w: Window, cut: Time): Window {
    var rest := Newer(w.members, cut);
    if rest == {} then EMPTY_WINDOW else Window(rest, w.expiresAt)
  }

  function Added(w: Window, m: Member): Window {
    Window(w.members + {m}, w.expiresAt)
  }

  function Armed(w: Window, until: Time): Window {
    if w.members == {} then w else Window(w.members, Some(until))
  }

  // What the store has behind the trimming, counting and adding of a request.
  function TrimmedKey(w: Window, seconds: nat, r: Request): Window {
    Trimmed(Seen(w, r.trimAt), r.now - seconds)
  }

  function Counted(w: Window, seconds: nat, r: Request): Window {
    Seen(TrimmedKey(w, seconds, r), r.countAt)
  }

  function AddedKey(w: Window, seconds: nat, r: Request): Window {
    var c := Counted(w, seconds, r);
    Added(Seen(c, r.addAt), Member(r.now, |c.members|))
  }

  predicate Admits(w: Window, limit: int, seconds: nat, r: Request) {
    |Counted(w, seconds, r).members| < limit
  }

  function After(w: Window, limit: int, seconds: nat, r: Request): Window {
    if Admits(w, limit, seconds, r)
    then Armed(Seen(AddedKey(w, seconds, r), r.armedAt), r.armedAt + seconds)
    else Counted(w, seconds, r)
  }

  function Key(limit: int, seconds: nat, rs: seq<Request>): Window {
    var n := |rs|;
    if n == 0 then EMPTY_WINDOW else After(Key(limit, seconds, rs[..n - 1]), limit, seconds, rs[n - 1])
  }

  // The times of the admitted requests.
  function Log(limit: int, seconds: nat, rs: seq<Request>): seq<Time> {
    var n := |rs|;
    if n == 0 then []
    else Log(limit, seconds, rs[..n - 1])
         + (if Admits(Key(limit, seconds, rs[..n - 1]), limit, seconds, rs[n - 1]) then [rs[n - 1].now] else [])
  }

  predicate InOrder(r: Request) {
    r.now <= r.trimAt <= r.countAt <= r.addAt <= r.armedAt
  }

  // One request after the other.
  ghost predicate Timely(rs: seq<Request>) {
    && (forall i, j | 0 <= i < j < |rs| :: rs[i].now <= rs[j].now)
    && (forall i | 0 <= i < |rs| :: InOrder(rs[i]))
  }

  // ----- Times within an interval -----

  // How many times of the log lie in lo .. hi, lo excluded.
  function Within(log: seq<Time>, lo: Time, hi: Time): nat {
    var n := |log|;
    if n == 0 then 0 else Within(log[..n - 1], lo, hi) + (if lo < log[n - 1] <= hi then 1 else 0)
  }

  predicate AllUpTo(log: seq<Time>, t: Time) {
    forall i | 0 <= i < |log| :: log[i] <= t
  }

  lemma WithinAppend(log: seq<Time>, t: Time, lo: Time, hi: Time)
    ensures Within(log + [t], lo, hi) == Within(log, lo, hi) + (if lo < t <= hi then 1 else 0)
  {
    assert (log + [t])[..|log|] == log;
  }

  lemma {:induction false} WithinJoin(a: seq<Time>, b: seq<Time>, lo: Time, hi: Time)
    ensures Within(a + b, lo, hi) == Within(a, lo, hi) + Within(b, lo, hi)
  {
    var n := |b|;
    if n == 0 {
      assert a + b == a;
    } else {
      WithinJoin(a, b[..n - 1], lo, hi);
      assert (a + b)[..|a + b| - 1] == a + b[..n - 1];
    }
  }

  // Widening an interval to the left counts no less, and times after the end of the log change nothing.
  lemma {:induction false} WithinGrows(log: seq<Time>, lo: Time, lo': Time, hi: Time, hi': Time)
    requires lo' <= lo && (hi <= hi' || AllUpTo(log, hi'))
    ensures Within(log, lo, hi) <= Within(log, lo', hi')
  {
    var n := |log|;
    if n > 0 {
      WithinGrows(log[..n - 1], lo, lo', hi, hi');
    }
  }

  lemma {:induction false} WithinNothing(log: seq<Time>, lo: Time, hi: Time)
    requires AllUpTo(log, lo)
    ensures Within(log, lo, hi) == 0
  {
    var n := |log|;
    if n > 0 {
      WithinNothing(log[..n - 1], lo, hi);
    }
  }

  lemma {:induction false} WithinSomething(log: seq<Time>, t: Time, lo: Time, hi: Time)
    requires t in log && lo < t <= hi
    ensures Within(log, lo, hi) > 0
  {
    var n := |log|;
    if t != log[n - 1] {
      WithinSomething(log[..n - 1], t, lo, hi);
    }
  }

  // ----- The books: what became of every admission -----

  // Beside the key the log of all admissions, those the key still stands for, those it lost, and how often
  // it lost some.
  datatype Books = Books(key: Window, log: seq<Time>, kept: seq<Time>, lost: seq<Time>, losses: nat)

  const NO_BOOKS := Books(EMPTY_WINDOW, [], [], [], 0)

  // A command that finds the key expired: all it stood for is lost.
  function Looked(b: Books, t: Time): Books {
    if Expired(b.key, t) then Books(EMPTY_WINDOW, b.log, [], b.lost + b.kept, b.losses + 1) else b
  }

  // An admission whose member is already there is lost as well.
  function Entered(b: Books, m: Member): Books {
    if m in b.key.members
    then Books(Added(b.key, m), b.log + [m.at], b.kept, b.lost + [m.at], b.losses + 1)
    else Books(Added(b.key, m), b.log + [m.at], b.kept + [m.at], b.lost, b.losses)
  }

  function TrimmedBooks(b: Books, cut: Time): Books {
    b.(key := Trimmed(b.key, cut))
  }

  function CountedBooks(b: Books, seconds: nat, r: Request): Books {
    Looked(TrimmedBooks(Looked(b, r.trimAt), r.now - seconds), r.countAt)
  }

  function EnteredBooks(c: Books, r: Request): Books {
    Looked(Entered(Looked(c, r.addAt), Member(r.now, |c.key.members|)), r.armedAt)
  }

  function BooksAfter(b: Books, limit: int, seconds: nat, r: Request): Books {
    var c := CountedBooks(b, seconds, r);
    if |c.key.members| < limit
    then EnteredBooks(c, r).(key := Armed(EnteredBooks(c, r).key, r.armedAt + seconds))
    else c
  }

  function Run(limit: int, seconds: nat, rs: seq<Request>): Books {
    var n := |rs|;
    if n == 0 then NO_BOOKS else BooksAfter(Run(limit, seconds, rs[..n - 1]), limit, seconds, rs[n - 1])
  }

  lemma CountOfTheKey(b: Books, seconds: nat, r: Request)
    ensures CountedBooks(b, seconds, r).key == Counted(b.key, seconds, r)
    ensures CountedBooks(b, seconds, r).log == b.log
  {
  }

  lemma EntryOfTheKey(c: Books, r: Request)
    ensures EnteredBooks(c, r).key == Seen(Added(Seen(c.key, r.addAt), Member(r.now, |c.key.members|)), r.armedAt)
    ensures EnteredBooks(c, r).log == c.log + [r.now]
  {
  }

  lemma StepOfTheKey(b: Books, limit: int, seconds: nat, r: Request)
    ensures BooksAfter(b, limit, seconds, r).key == After(b.key, limit, seconds, r)
    ensures BooksAfter(b, limit, seconds, r).log == b.log + (if Admits(b.key, limit, seconds, r) then [r.now] else [])
  {
    CountOfTheKey(b, seconds, r);
    EntryOfTheKey(CountedBooks(b, seconds, r), r);
    assert b.log + [] == b.log;
  }

  // The books describe the key of the store and the log of the admissions.
  lemma {:induction false} BooksOfTheKey(limit: int, seconds: nat, rs: seq<Request>)
    ensures Run(limit, seconds, rs).key == Key(limit, seconds, rs)
    ensures Run(limit, seconds, rs).log == Log(limit, seconds, rs)
  {
    var n := |rs|;
    if n > 0 {
      BooksOfTheKey(limit, seconds, rs[..n - 1]);
      StepOfTheKey(Run(limit, seconds, rs[..n - 1]), limit, seconds, rs[n - 1]);
    }
  }

  // The members stand for the kept admissions on every cut that still matters.
  ghost predicate Sound(b: Books, seconds: nat, now: Time) {
    && AllUpTo(b.log, now) && AllUpTo(b.kept, now)
    && (forall m | m in b.key.members :: m.at <= now)
    && (forall cut | cut >= now - seconds :: |Newer(b.key.members, cut)| == Within(b.kept, cut, now))
  }

  lemma SoundLater(b: Books, seconds: nat, last: Time, now: Time)
    requires Sound(b, seconds, last) && last <= now
    ensures Sound(b, seconds, now)
  {
    forall cut | cut >= now - seconds ensures |Newer(b.key.members, cut)| == Within(b.kept, cut, now) {
      WithinGrows(b.kept, cut, cut, last, now);
      WithinGrows(b.kept, cut, cut, now, last);
    }
  }

  lemma SoundLooked(b: Books, seconds: nat, now: Time, t: Time)
    requires Sound(b, seconds, now)
    ensures Sound(Looked(b, t), seconds, now)
  {
    assert forall cut :: Newer({}, cut) == {};
  }

  lemma SoundTrimmed(b: Books, seconds: nat, now: Time)
    requires Sound(b, seconds, now)
    ensures Sound(TrimmedBooks(b, now - seconds), seconds, now)
    ensures forall m | m in Trimmed(b.key, now - seconds).members :: m.at > now - seconds
  {
    var rest := Newer(b.key.members, now - seconds);
    forall cut | cut >= now - seconds
      ensures Newer(Trimmed(b.key, now - seconds).members, cut) == Newer(b.key.members, cut)
    {
      assert Newer(rest, cut) == Newer(b.key.members, cut);
    }
  }

  lemma NewerGains(ms: set<Member>, x: Member, cut: Time)
    requires x !in ms
    ensures |Newer(ms + {x}, cut)| == |Newer(ms, cut)| + (if x.at > cut then 1 else 0)
  {
    if x.at > cut {
      assert Newer(ms + {x}, cut) == Newer(ms, cut) + {x};
    } else {
      assert Newer(ms + {x}, cut) == Newer(ms, cut);
    }
  }

  lemma SoundEntered(b: Books, seconds: nat, m: Member)
    requires Sound(b, seconds, m.at)
    ensures Sound(Entered(b, m), seconds, m.at)
  {
    if m in b.key.members {
      assert b.key.members + {m} == b.key.members;
    } else {
      forall cut | cut >= m.at - seconds
        ensures |Newer(b.key.members + {m}, cut)| == Within(b.kept + [m.at], cut, m.at)
      {
        WithinAppend(b.kept, m.at, cut, m.at);
        NewerGains(b.key.members, m, cut);
      }
    }
  }

  lemma SoundCounted(b: Books, seconds: nat, last: Time, r: Request)
    requires Sound(b, seconds, last) && last <= r.now
    ensures var c := CountedBooks(b, seconds, r);
      Sound(c, seconds, r.now) && |c.key.members| == Within(c.kept, r.now - seconds, r.now)
  {
    var b1 := Looked(b, r.trimAt);
    var b2 := TrimmedBooks(b1, r.now - seconds);
    SoundLater(b, seconds, last, r.now);
    SoundLooked(b, seconds, r.now, r.trimAt);
    SoundTrimmed(b1, seconds, r.now);
    SoundLooked(b2, seconds, r.now, r.countAt);
    var c := CountedBooks(b, seconds, r);
    assert Newer(c.key.members, r.now - seconds) == c.key.members;
  }

  lemma SoundAfter(b: Books, limit: int, seconds: nat, last: Time, r: Request)
    requires Sound(b, seconds, last) && last <= r.now
    ensures Sound(BooksAfter(b, limit, seconds, r), seconds, r.now)
  {
    SoundCounted(b, seconds, last, r);
    var c := CountedBooks(b, seconds, r);
    if |c.key.members| < limit {
      SoundLooked(c, seconds, r.now, r.addAt);
      SoundEntered(Looked(c, r.addAt), seconds, Member(r.now, |c.key.members|));
      SoundLooked(Entered(Looked(c, r.addAt), Member(r.now, |c.key.members|)), seconds, r.now, r.armedAt);
    }
  }

  function LastTime(rs: seq<Request>, otherwise: Time): Time {
    if |rs| == 0 then otherwise else rs[|rs| - 1].now
  }

  lemma {:induction false} RunIsSound(limit: int, seconds: nat, rs: seq<Request>, now: Time)
    requires Timely(rs)
    ensures Sound(Run(limit, seconds, rs), seconds, LastTime(rs, now))
  {
    var n := |rs|;
    if n == 0 {
      assert forall cut :: Newer({}, cut) == {};
    } else {
      RunIsSound(limit, seconds, rs[..n - 1], rs[n - 1].now);
      SoundAfter(Run(limit, seconds, rs[..n - 1]), limit, seconds, LastTime(rs[..n - 1], rs[n - 1].now), rs[n - 1]);
    }
  }

  // ----- Every admission is kept or lost -----

  predicate Splits(b: Books, lo: Time, hi: Time) {
    Within(b.log, lo, hi) == Within(b.kept, lo, hi) + Within(b.lost, lo, hi)
  }

  lemma SplitsLooked(b: Books, t: Time, lo: Time, hi: Time)
    requires Splits(b, lo, hi)
    ensures Splits(Looked(b, t), lo, hi)
  {
    WithinJoin(b.lost, b.kept, lo, hi);
  }

  lemma SplitsEntered(b: Books, m: Member, lo: Time, hi: Time)
    requires Splits(b, lo, hi)
    ensures Splits(Entered(b, m), lo, hi)
  {
    WithinAppend(b.log, m.at, lo, hi);
    WithinAppend(b.kept, m.at, lo, hi);
    WithinAppend(b.lost, m.at, lo, hi);
  }

  lemma SplitsCounted(b: Books, seconds: nat, r: Request, lo: Time, hi: Time)
    requires Splits(b, lo, hi)
    ensures Splits(CountedBooks(b, seconds, r), lo, hi)
  {
    SplitsLooked(b, r.trimAt, lo, hi);
    SplitsLooked(TrimmedBooks(Looked(b, r.trimAt), r.now - seconds), r.countAt, lo, hi);
  }

  lemma SplitsAfter(b: Books, limit: int, seconds: nat, r: Request, lo: Time, hi: Time)
    requires Splits(b, lo, hi)
    ensures Splits(BooksAfter(b, limit, seconds, r), lo, hi)
  {
    SplitsCounted(b, seconds, r, lo, hi);
    var c := CountedBooks(b, seconds, r);
    if |c.key.members| < limit {
      var m := Member(r.now, |c.key.members|);
      SplitsLooked(c, r.addAt, lo, hi);
      SplitsEntered(Looked(c, r.addAt), m, lo, hi);
      SplitsLooked(Entered(Looked(c, r.addAt), m), r.armedAt, lo, hi);
    }
  }

  lemma {:induction false} RunSplits(limit: int, seconds: nat, rs: seq<Request>, lo: Time, hi: Time)
    ensures Splits(Run(limit, seconds, rs), lo, hi)
  {
    var n := |rs|;
    if n > 0 {
      RunSplits(limit, seconds, rs[..n - 1], lo, hi);
      SplitsAfter(Run(limit, seconds, rs[..n - 1]), limit, seconds, rs[n - 1], lo, hi);
    }
  }

  // What the request `r` behind `rs` finds when it counts.
  function AtCount(limit: int, seconds: nat, rs: seq<Request>, r: Request): Books {
    CountedBooks(Run(limit, seconds, rs), seconds, r)
  }

  // For every sequence of requests and however late their commands are: the count is that of the log if
  // and only if the window holds no lost admission, and it is never more.
  lemma CountsTheLogExactlyWhen(limit: int, seconds: nat, rs: seq<Request>, r: Request)
    requires Timely(rs + [r])
    ensures var count := |Counted(Key(limit, seconds, rs), seconds, r).members|;
      var ofLog := Within(Log(limit, seconds, rs), r.now - seconds, r.now);
      var ofLost := Within(AtCount(limit, seconds, rs, r).lost, r.now - seconds, r.now);
      count + ofLost == ofLog && (count == ofLog <==> ofLost == 0)
  {
    CountsWhatIsKept(limit, seconds, rs, r);
    SplitsAtCount(limit, seconds, rs, r, r.now - seconds, r.now);
  }

  lemma SplitsAtCount(limit: int, seconds: nat, rs: seq<Request>, r: Request, lo: Time, hi: Time)
    ensures var c := AtCount(limit, seconds, rs, r);
      Within(Log(limit, seconds, rs), lo, hi) == Within(c.kept, lo, hi) + Within(c.lost, lo, hi)
  {
    RunSplits(limit, seconds, rs, lo, hi);
    SplitsCounted(Run(limit, seconds, rs), seconds, r, lo, hi);
    BooksOfTheKey(limit, seconds, rs);
    CountOfTheKey(Run(limit, seconds, rs), seconds, r);
  }

  lemma CountsWhatIsKept(limit: int, seconds: nat, rs: seq<Request>, r: Request)
    requires Timely(rs + [r])
    ensures |Counted(Key(limit, seconds, rs), seconds, r).members|
         == Within(AtCount(limit, seconds, rs, r).kept, r.now - seconds, r.now)
  {
    TimelyFront(rs, r);
    RunIsSound(limit, seconds, rs, r.now);
    SoundCounted(Run(limit, seconds, rs), seconds, LastTime(rs, r.now), r);
    BooksOfTheKey(limit, seconds, rs);
    CountOfTheKey(Run(limit, seconds, rs), seconds, r);
  }

  lemma TimelyFront(rs: seq<Request>, r: Request)
    requires Timely(rs + [r])
    ensures Timely(rs) && LastTime(rs, r.now) <= r.now && InOrder(r)
  {
    assert rs == (rs + [r])[..|rs|];
    assert (rs + [r])[|rs|] == r;
    assert forall i | 0 <= i < |rs| :: rs[i] == (rs + [r])[i];
  }

  // The decision is that of the log if and only if the lost admissions of the window do not decide: what
  // is left fills it without them, or it is not full with them.
  lemma DecidesByTheLogExactlyWhen(limit: int, seconds: nat, rs: seq<Request>, r: Request)
    requires Timely(rs + [r])
    ensures var c := AtCount(limit, seconds, rs, r); var lo := r.now - seconds;
      (Admits(Key(limit, seconds, rs), limit, seconds, r) <==> Within(Log(limit, seconds, rs), lo, r.now) < limit)
      <==> Within(c.kept, lo, r.now) >= limit || Within(c.kept, lo, r.now) + Within(c.lost, lo, r.now) < limit
  {
    CountsTheLogExactlyWhen(limit, seconds, rs, r);
    CountsWhatIsKept(limit, seconds, rs, r);
  }

  // ----- Bounds for every run -----

  function AtLeastZero(limit: int): nat {
    if limit < 0 then 0 else limit
  }

  // Each time of the log was admitted while fewer than `limit` earlier ones lay in its window.
  predicate Gated(log: seq<Time>, limit: int, seconds: nat) {
    var n := |log| - 1;
    n >= 0 ==>
      && Gated(log[..n], limit, seconds)
      && AllUpTo(log[..n], log[n]) && Within(log[..n], log[n] - seconds, log[n]) < limit
  }

  lemma GatedAppend(log: seq<Time>, limit: int, seconds: nat, now: Time)
    requires Gated(log, limit, seconds) && AllUpTo(log, now) && Within(log, now - seconds, now) < limit
    ensures Gated(log + [now], limit, seconds)
  {
    assert (log + [now])[..|log|] == log;
  }

  lemma AdmissionKeepsBound(log: seq<Time>, limit: int, seconds: nat, now: Time, s: Time)
    requires Within(log, now - seconds, now) < limit && Within(log, s, s + seconds) <= AtLeastZero(limit)
    requires AllUpTo(log, now)
    ensures Within(log + [now], s, s + seconds) <= AtLeastZero(limit)
  {
    WithinAppend(log, now, s, s + seconds);
    if s < now <= s + seconds {
      WithinGrows(log, s, now - seconds, s + seconds, now);
    }
  }

  lemma {:induction false} GatedIsBounded(log: seq<Time>, limit: int, seconds: nat, s: Time)
    requires Gated(log, limit, seconds)
    ensures Within(log, s, s + seconds) <= AtLeastZero(limit)
  {
    var n := |log| - 1;
    if n >= 0 {
      GatedIsBounded(log[..n], limit, seconds, s);
      AdmissionKeepsBound(log[..n], limit, seconds, log[n], s);
      assert log == log[..n] + [log[n]];
    }
  }

  // What is kept is gated, and each loss takes at most `limit` admissions of any window.
  predicate Bounded(b: Books, limit: int, seconds: nat, s: Time) {
    && Gated(b.kept, limit, seconds)
    && Within(b.lost, s, s + seconds) <= AtLeastZero(limit) * b.losses
  }

  lemma OneMoreLoss(most: nat, losses: nat)
    ensures most * (losses + 1) == most * losses + most
  {
  }

  lemma BoundedLooked(b: Books, limit: int, seconds: nat, s: Time, t: Time)
    requires Bounded(b, limit, seconds, s)
    ensures Bounded(Looked(b, t), limit, seconds, s)
  {
    WithinJoin(b.lost, b.kept, s, s + seconds);
    GatedIsBounded(b.kept, limit, seconds, s);
    OneMoreLoss(AtLeastZero(limit), b.losses);
  }

  lemma GatedEntered(b: Books, limit: int, seconds: nat, m: Member)
    requires Gated(b.kept, limit, seconds) && AllUpTo(b.kept, m.at)
    requires Within(b.kept, m.at - seconds, m.at) < limit
    ensures Gated(Entered(b, m).kept, limit, seconds)
  {
    GatedAppend(b.kept, limit, seconds, m.at);
  }

  lemma BoundedEntered(b: Books, limit: int, seconds: nat, s: Time, m: Member)
    requires Bounded(b, limit, seconds, s) && limit >= 1 && Gated(Entered(b, m).kept, limit, seconds)
    ensures Bounded(Entered(b, m), limit, seconds, s)
  {
    WithinAppend(b.lost, m.at, s, s + seconds);
    OneMoreLoss(limit, b.losses);
  }

  lemma BoundedAdmission(c: Books, limit: int, seconds: nat, s: Time, r: Request)
    requires Bounded(c, limit, seconds, s) && AllUpTo(c.kept, r.now) && limit >= 1
    requires Within(c.kept, r.now - seconds, r.now) < limit
    ensures Bounded(EnteredBooks(c, r), limit, seconds, s)
  {
    var m := Member(r.now, |c.key.members|);
    BoundedLooked(c, limit, seconds, s, r.addAt);
    GatedEntered(Looked(c, r.addAt), limit, seconds, m);
    BoundedEntered(Looked(c, r.addAt), limit, seconds, s, m);
    BoundedLooked(Entered(Looked(c, r.addAt), m), limit, seconds, s, r.armedAt);
  }

  lemma BoundedAfter(b: Books, limit: int, seconds: nat, last: Time, r: Request, s: Time)
    requires Bounded(b, limit, seconds, s) && Sound(b, seconds, last) && last <= r.now
    ensures Bounded(BooksAfter(b, limit, seconds, r), limit, seconds, s)
  {
    BoundedLooked(b, limit, seconds, s, r.trimAt);
    BoundedLooked(TrimmedBooks(Looked(b, r.trimAt), r.now - seconds), limit, seconds, s, r.countAt);
    SoundCounted(b, seconds, last, r);
    var c := CountedBooks(b, seconds, r);
    if |c.key.members| < limit {
      BoundedAdmission(c, limit, seconds, s, r);
    }
  }

  lemma {:induction false} RunIsBounded(limit: int, seconds: nat, rs: seq<Request>, s: Time)
    requires Timely(rs)
    ensures Bounded(Run(limit, seconds, rs), limit, seconds, s)
  {
    var n := |rs|;
    if n > 0 {
      RunIsBounded(limit, seconds, rs[..n - 1], s);
      RunIsSound(limit, seconds, rs[..n - 1], rs[n - 1].now);
      BoundedAfter(Run(limit, seconds, rs[..n - 1]), limit, seconds, LastTime(rs[..n - 1], rs[n - 1].now), rs[n - 1],
                   s);
    }
  }

  // In every run an interval as long as the window holds at most `limit` admissions for each loss and once
  // more.
  lemma EveryWindowWithinLosses(limit: int, seconds: nat, rs: seq<Request>, s: Time)
    requires Timely(rs)
    ensures Within(Log(limit, seconds, rs), s, s + seconds)
         <= AtLeastZero(limit) * (Run(limit, seconds, rs).losses + 1)
  {
    RunIsBounded(limit, seconds, rs, s);
    RunSplits(limit, seconds, rs, s, s + seconds);
    BooksOfTheKey(limit, seconds, rs);
    GatedIsBounded(Run(limit, seconds, rs).kept, limit, seconds, s);
    OneMoreLoss(AtLeastZero(limit), Run(limit, seconds, rs).losses);
  }

  // ----- When something that counts is lost -----

  // When the store executes the last command of a request.
  function EndOf(b: Books, limit: int, seconds: nat, r: Request): Time {
    if |CountedBooks(b, seconds, r).key.members| < limit then r.armedAt else r.countAt
  }

  // The clock was read inside the window of the admission before, but the last command came when the time
  // to live that admission had set was over.
  predicate Outlives(i: Request, now: Time, end: Time, seconds: nat) {
    now < i.now + seconds && i.armedAt + seconds <= end
  }

  // The last request that was admitted.
  function LastOf(b: Books, limit: int, seconds: nat, last: Option<Request>, r: Request): Option<Request> {
    if |CountedBooks(b, seconds, r).key.members| < limit then Some(r) else last
  }

  function Last(limit: int, seconds: nat, rs: seq<Request>): Option<Request> {
    var n := |rs|;
    if n == 0 then None
    else LastOf(Run(limit, seconds, rs[..n - 1]), limit, seconds, Last(limit, seconds, rs[..n - 1]), rs[n - 1])
  }

  predicate StraddlesAfter(b: Books, limit: int, seconds: nat, last: Option<Request>, r: Request) {
    last.Some? && Outlives(last.value, r.now, EndOf(b, limit, seconds, r), seconds)
  }

  // The request `r` behind `rs` does so.
  predicate Straddles(limit: int, seconds: nat, rs: seq<Request>, r: Request) {
    StraddlesAfter(Run(limit, seconds, rs), limit, seconds, Last(limit, seconds, rs), r)
  }

  predicate NoneStraddles(limit: int, seconds: nat, rs: seq<Request>) {
    var n := |rs|;
    n > 0 ==> NoneStraddles(limit, seconds, rs[..n - 1]) && !Straddles(limit, seconds, rs[..n - 1], rs[n - 1])
  }

  // The key is that of the last admission, nothing that counts is lost, and tags tell members of one
  // instant apart.
  ghost predicate Nominal(b: Books, limit: int, seconds: nat, last: Option<Request>, now: Time) {
    && Sound(b, seconds, now) && AllUpTo(b.lost, now - seconds)
    && (b.key.members == {} ==> b.key.expiresAt == None)
    && (forall m | m in b.key.members && m.at == now :: m.tag < |Newer(b.key.members, now - seconds)|)
    && match last
       case None => b.key == EMPTY_WINDOW && b.kept == [] && b.lost == []
       case Some(i) =>
         && limit >= 1 && i.now <= now && AllUpTo(b.kept, i.now)
         && (now - seconds < i.now ==> i.now in b.kept)
         && (b.key.members != {} ==> b.key.expiresAt == Some(i.armedAt + seconds))
  }

  // A request that finds no admission in its window starts afresh.
  lemma FreshIsNominal(b: Books, limit: int, seconds: nat, last: Option<Request>, before: Time, r: Request,
                       after: Books)
    requires Nominal(b, limit, seconds, last, before) && before <= r.now && InOrder(r) && seconds >= 1
    requires last.Some? ==> last.value.now + seconds <= r.now
    requires after == BooksAfter(b, limit, seconds, r)
    ensures Nominal(after, limit, seconds, LastOf(b, limit, seconds, last, r), r.now)
  {
    SoundAfter(b, limit, seconds, before, r);
    FreshCount(b, limit, seconds, last, before, r);
    var c := CountedBooks(b, seconds, r);
    if 0 < limit {
      FreshAdmission(c, seconds, r);
      FirstIsNominal(after, c, limit, seconds, r);
    } else {
      assert last.None?;
    }
  }

  lemma FirstIsNominal(b: Books, c: Books, limit: int, seconds: nat, r: Request)
    requires Sound(b, seconds, r.now) && limit >= 1 && seconds >= 1
    requires b == Books(Window({Member(r.now, 0)}, Some(r.armedAt + seconds)), c.log + [r.now], c.kept + [r.now],
                        c.lost, c.losses)
    requires AllUpTo(c.lost, r.now - seconds) && AllUpTo(c.kept, r.now - seconds)
    ensures Nominal(b, limit, seconds, Some(r), r.now)
  {
    assert Newer(b.key.members, r.now - seconds) == {Member(r.now, 0)};
    assert b.kept[|c.kept|] == r.now;
  }

  lemma FreshCount(b: Books, limit: int, seconds: nat, last: Option<Request>, before: Time, r: Request)
    requires Nominal(b, limit, seconds, last, before) && before <= r.now
    requires last.Some? ==> last.value.now + seconds <= r.now
    ensures var c := CountedBooks(b, seconds, r);
      c.key == EMPTY_WINDOW && AllUpTo(c.lost, r.now - seconds) && AllUpTo(c.kept, r.now - seconds)
      && (last.None? ==> c.kept == [] && c.lost == []) && (c.kept == b.kept || c.kept == [])
  {
    SoundCounted(b, seconds, before, r);
    WithinNothing(CountedBooks(b, seconds, r).kept, r.now - seconds, r.now);
  }

  lemma FreshAdmission(c: Books, seconds: nat, r: Request)
    requires c.key == EMPTY_WINDOW
    ensures EnteredBooks(c, r) == Books(Window({Member(r.now, 0)}, None), c.log + [r.now], c.kept + [r.now],
                                        c.lost, c.losses)
  {
    var m := Member(r.now, 0);
    assert {} + {m} == {m};
  }

  // Before the time to live is over, nothing is lost.
  lemma TimelyCount(b: Books, limit: int, seconds: nat, i: Request, before: Time, r: Request)
    requires Nominal(b, limit, seconds, Some(i), before) && before <= r.now
    requires r.now < i.now + seconds && r.trimAt <= r.countAt < i.armedAt + seconds
    ensures CountedBooks(b, seconds, r) == TrimmedBooks(b, r.now - seconds)
    ensures var rest := Newer(b.key.members, r.now - seconds);
      rest != {} && TrimmedBooks(b, r.now - seconds).key == Window(rest, Some(i.armedAt + seconds))
  {
    SoundLater(b, seconds, before, r.now);
    WithinSomething(b.kept, i.now, r.now - seconds, r.now);
  }

  // Tags tell the members of one instant apart.
  predicate TagsBelow(w: Window, now: Time) {
    forall m | m in w.members && m.at == now :: m.tag < |w.members|
  }

  lemma TagsCounted(b: Books, limit: int, seconds: nat, last: Option<Request>, before: Time, r: Request)
    requires Nominal(b, limit, seconds, last, before) && before <= r.now
    ensures TagsBelow(Window(Newer(b.key.members, r.now - seconds), None), r.now)
  {
  }

  lemma TimelyIsNominal(b: Books, limit: int, seconds: nat, i: Request, before: Time, r: Request)
    requires Nominal(b, limit, seconds, Some(i), before) && before <= r.now && InOrder(r) && seconds >= 1
    requires r.now < i.now + seconds && EndOf(b, limit, seconds, r) < i.armedAt + seconds
    ensures Nominal(BooksAfter(b, limit, seconds, r), limit, seconds, LastOf(b, limit, seconds, Some(i), r), r.now)
  {
    SoundAfter(b, limit, seconds, before, r);
    TimelyCount(b, limit, seconds, i, before, r);
    TagsCounted(b, limit, seconds, Some(i), before, r);
    var c := CountedBooks(b, seconds, r);
    assert Newer(c.key.members, r.now - seconds) == c.key.members;
    if |c.key.members| < limit {
      NextAdmission(c, seconds, r);
      NextIsNominal(BooksAfter(b, limit, seconds, r), c, limit, seconds, r);
    }
  }

  lemma NextAdmission(c: Books, seconds: nat, r: Request)
    requires !Expired(c.key, r.addAt) && !Expired(c.key, r.armedAt) && TagsBelow(c.key, r.now)
    ensures EnteredBooks(c, r) == Books(Added(c.key, Member(r.now, |c.key.members|)), c.log + [r.now],
                                        c.kept + [r.now], c.lost, c.losses)
  {
  }

  lemma NextIsNominal(b: Books, c: Books, limit: int, seconds: nat, r: Request)
    requires Sound(b, seconds, r.now) && limit >= 1 && seconds >= 1 && TagsBelow(c.key, r.now)
    requires Newer(c.key.members, r.now - seconds) == c.key.members
    requires b == Books(Window(c.key.members + {Member(r.now, |c.key.members|)}, Some(r.armedAt + seconds)),
                        c.log + [r.now], c.kept + [r.now], c.lost, c.losses)
    requires AllUpTo(c.lost, r.now - seconds) && AllUpTo(c.kept, r.now)
    ensures Nominal(b, limit, seconds, Some(r), r.now)
  {
    var m := Member(r.now, |c.key.members|);
    assert m !in c.key.members;
    NewerGains(c.key.members, m, r.now - seconds);
    assert b.kept[|c.kept|] == r.now;
  }

  lemma StepIsNominal(b: Books, limit: int, seconds: nat, last: Option<Request>, before: Time, r: Request)
    requires Nominal(b, limit, seconds, last, before) && before <= r.now && InOrder(r) && seconds >= 1
    requires !StraddlesAfter(b, limit, seconds, last, r)
    ensures Nominal(BooksAfter(b, limit, seconds, r), limit, seconds, LastOf(b, limit, seconds, last, r), r.now)
  {
    if last.None? || last.value.now + seconds <= r.now {
      FreshIsNominal(b, limit, seconds, last, before, r, BooksAfter(b, limit, seconds, r));
    } else {
      TimelyIsNominal(b, limit, seconds, last.value, before, r);
    }
  }

  // The window that ends at `now` holds a lost admission.
  predicate Lacks(b: Books, seconds: nat, now: Time) {
    Within(b.lost, now - seconds, now) > 0
  }

  // A request that outlives the key loses an admission of its own window.
  lemma OutlivingLoses(b: Books, limit: int, seconds: nat, i: Request, before: Time, r: Request)
    requires Nominal(b, limit, seconds, Some(i), before) && before <= r.now && InOrder(r)
    requires Outlives(i, r.now, EndOf(b, limit, seconds, r), seconds)
    ensures Lacks(BooksAfter(b, limit, seconds, r), seconds, r.now)
  {
    if r.countAt < i.armedAt + seconds {
      TimelyCount(b, limit, seconds, i, before, r);
      LateEntryLoses(CountedBooks(b, seconds, r), r, i.now);
    } else {
      LateCountLoses(b, limit, seconds, i, before, r);
    }
    WithinSomething(BooksAfter(b, limit, seconds, r).lost, i.now, r.now - seconds, r.now);
  }

  lemma LateEntryLoses(c: Books, r: Request, t: Time)
    requires c.key.expiresAt.Some? && c.key.expiresAt.value <= r.armedAt && t in c.kept
    ensures t in EnteredBooks(c, r).lost
  {
  }

  lemma LateCountLoses(b: Books, limit: int, seconds: nat, i: Request, before: Time, r: Request)
    requires Nominal(b, limit, seconds, Some(i), before) && before <= r.now && InOrder(r)
    requires r.now < i.now + seconds && i.armedAt + seconds <= r.countAt
    ensures i.now in CountedBooks(b, seconds, r).lost && i.now in BooksAfter(b, limit, seconds, r).lost
  {
    SoundLater(b, seconds, before, r.now);
    WithinSomething(b.kept, i.now, r.now - seconds, r.now);
    assert Newer(b.key.members, r.now - seconds) != {};
    assert CountedBooks(b, seconds, r).lost == b.lost + b.kept;
  }

  lemma {:induction false} RunIsNominal(limit: int, seconds: nat, rs: seq<Request>, now: Time)
    requires Timely(rs) && seconds >= 1 && NoneStraddles(limit, seconds, rs)
    ensures Nominal(Run(limit, seconds, rs), limit, seconds, Last(limit, seconds, rs), LastTime(rs, now))
  {
    var n := |rs|;
    if n == 0 {
      assert forall cut :: Newer({}, cut) == {};
    } else {
      var front := rs[..n - 1];
      RunIsNominal(limit, seconds, front, rs[n - 1].now);
      StepIsNominal(Run(limit, seconds, front), limit, seconds, Last(limit, seconds, front),
                    LastTime(front, rs[n - 1].now), rs[n - 1]);
    }
  }

  lemma StepLosesExactlyWhen(b: Books, limit: int, seconds: nat, last: Option<Request>, before: Time, r: Request)
    requires Nominal(b, limit, seconds, last, before) && before <= r.now && InOrder(r) && seconds >= 1
    ensures Lacks(BooksAfter(b, limit, seconds, r), seconds, r.now) <==> StraddlesAfter(b, limit, seconds, last, r)
  {
    if StraddlesAfter(b, limit, seconds, last, r) {
      OutlivingLoses(b, limit, seconds, last.value, before, r);
    } else {
      StepIsNominal(b, limit, seconds, last, before, r);
      NominalLacksNothing(BooksAfter(b, limit, seconds, r), limit, seconds, LastOf(b, limit, seconds, last, r), r.now);
    }
  }

  lemma NominalLacksNothing(b: Books, limit: int, seconds: nat, last: Option<Request>, now: Time)
    requires Nominal(b, limit, seconds, last, now)
    ensures !Lacks(b, seconds, now)
  {
    WithinNothing(b.lost, now - seconds, now);
  }

  lemma RunStep(limit: int, seconds: nat, rs: seq<Request>, front: seq<Request>, r: Request)
    requires |rs| > 0 && front == rs[..|rs| - 1] && r == rs[|rs| - 1]
    ensures Run(limit, seconds, rs) == BooksAfter(Run(limit, seconds, front), limit, seconds, r)
  {
  }

  // No request of the run leaves a lost admission in its window.
  predicate NothingCountingIsLost(limit: int, seconds: nat, rs: seq<Request>) {
    var n := |rs|;
    n > 0 ==>
      && NothingCountingIsLost(limit, seconds, rs[..n - 1])
      && !Lacks(Run(limit, seconds, rs), seconds, rs[n - 1].now)
  }

  lemma LastLosesExactlyWhen(limit: int, seconds: nat, rs: seq<Request>, front: seq<Request>, r: Request)
    requires Timely(rs) && seconds >= 1 && NoneStraddles(limit, seconds, front)
    requires |rs| > 0 && front == rs[..|rs| - 1] && r == rs[|rs| - 1]
    ensures Lacks(Run(limit, seconds, rs), seconds, r.now) <==> Straddles(limit, seconds, front, r)
  {
    RunIsNominal(limit, seconds, front, r.now);
    RunStep(limit, seconds, rs, front, r);
    StepLosesExactlyWhen(Run(limit, seconds, front), limit, seconds, Last(limit, seconds, front),
                         LastTime(front, r.now), r);
  }

  lemma NothingLostStep(limit: int, seconds: nat, rs: seq<Request>, front: seq<Request>, r: Request)
    requires |rs| > 0 && front == rs[..|rs| - 1] && r == rs[|rs| - 1]
    ensures NothingCountingIsLost(limit, seconds, rs)
      <==> NothingCountingIsLost(limit, seconds, front) && !Lacks(Run(limit, seconds, rs), seconds, r.now)
  {
  }

  lemma NoneStraddlesStep(limit: int, seconds: nat, rs: seq<Request>, front: seq<Request>, r: Request)
    requires |rs| > 0 && front == rs[..|rs| - 1] && r == rs[|rs| - 1]
    ensures NoneStraddles(limit, seconds, rs)
      <==> NoneStraddles(limit, seconds, front) && !Straddles(limit, seconds, front, r)
  {
  }

  // Nothing that counts is ever lost if and only if no request straddles the expiry of the key.
  lemma {:induction false} NothingIsLostExactlyWhen(limit: int, seconds: nat, rs: seq<Request>)
    requires Timely(rs) && seconds >= 1
    ensures NothingCountingIsLost(limit, seconds, rs) <==> NoneStraddles(limit, seconds, rs)
  {
    if |rs| > 0 {
      var front, r := rs[..|rs| - 1], rs[|rs| - 1];
      NothingIsLostExactlyWhen(limit, seconds, front);
      NothingLostStep(limit, seconds, rs, front, r);
      NoneStraddlesStep(limit, seconds, rs, front, r);
      if NoneStraddles(limit, seconds, front) {
        LastLosesExactlyWhen(limit, seconds, rs, front, r);
      }
    }
  }

  // Then a request is admitted exactly when fewer than `limit` admissions of the log lie in the window that
  // ends with it, whether or not the key expired in between.
  lemma AdmitsExactlyByLog(limit: int, seconds: nat, rs: seq<Request>, r: Request)
    requires Timely(rs + [r]) && seconds >= 1
    requires NoneStraddles(limit, seconds, rs) && !Straddles(limit, seconds, rs, r)
    ensures Admits(Key(limit, seconds, rs), limit, seconds, r)
      <==> Within(Log(limit, seconds, rs), r.now - seconds, r.now) < limit
  {
    CountIsThatOfTheLog(limit, seconds, rs, r);
  }

  lemma CountIsThatOfTheLog(limit: int, seconds: nat, rs: seq<Request>, r: Request)
    requires Timely(rs + [r]) && seconds >= 1
    requires NoneStraddles(limit, seconds, rs) && !Straddles(limit, seconds, rs, r)
    ensures |Counted(Key(limit, seconds, rs), seconds, r).members|
         == Within(Log(limit, seconds, rs), r.now - seconds, r.now)
  {
    CountsTheLogExactlyWhen(limit, seconds, rs, r);
    TimelyFront(rs, r);
    RunIsNominal(limit, seconds, rs, r.now);
    NothingLostAtCount(Run(limit, seconds, rs), limit, seconds, Last(limit, seconds, rs), LastTime(rs, r.now), r);
  }

  lemma NothingLostAtCount(b: Books, limit: int, seconds: nat, last: Option<Request>, before: Time, r: Request)
    requires Nominal(b, limit, seconds, last, before) && before <= r.now && InOrder(r) && seconds >= 1
    requires !StraddlesAfter(b, limit, seconds, last, r)
    ensures Within(CountedBooks(b, seconds, r).lost, r.now - seconds, r.now) == 0
  {
    StepIsNominal(b, limit, seconds, last, before, r);
    var c := CountedBooks(b, seconds, r);
    assert c.lost <= BooksAfter(b, limit, seconds, r).lost;
    WithinNothing(c.lost, r.now - seconds, r.now);
  }

  lemma {:induction false} LogIsUpTo(limit: int, seconds: nat, rs: seq<Request>, now: Time)
    requires Timely(rs) && LastTime(rs, now) <= now
    ensures AllUpTo(Log(limit, seconds, rs), now)
  {
    RunIsSound(limit, seconds, rs, now);
    BooksOfTheKey(limit, seconds, rs);
  }

  lemma LastIsGated(limit: int, seconds: nat, front: seq<Request>, r: Request, log: seq<Time>)
    requires Timely(front + [r]) && seconds >= 1 && log == Log(limit, seconds, front)
    requires NoneStraddles(limit, seconds, front) && !Straddles(limit, seconds, front, r)
    requires Gated(log, limit, seconds) && Admits(Key(limit, seconds, front), limit, seconds, r)
    ensures Gated(log + [r.now], limit, seconds)
  {
    AdmitsExactlyByLog(limit, seconds, front, r);
    TimelyFront(front, r);
    LogIsUpTo(limit, seconds, front, r.now);
    GatedAppend(log, limit, seconds, r.now);
  }

  lemma {:induction false} LogIsGated(limit: int, seconds: nat, rs: seq<Request>)
    requires Timely(rs) && seconds >= 1 && NoneStraddles(limit, seconds, rs)
    ensures Gated(Log(limit, seconds, rs), limit, seconds)
  {
    var n := |rs|;
    if n > 0 {
      LogIsGated(limit, seconds, rs[..n - 1]);
      assert rs[..n - 1] + [rs[n - 1]] == rs;
      LogStep(limit, seconds, rs);
      if Admits(Key(limit, seconds, rs[..n - 1]), limit, seconds, rs[n - 1]) {
        LastIsGated(limit, seconds, rs[..n - 1], rs[n - 1], Log(limit, seconds, rs[..n - 1]));
      }
    }
  }

  lemma LogStep(limit: int, seconds: nat, rs: seq<Request>)
    requires |rs| > 0
    ensures var n := |rs| - 1; var front := Log(limit, seconds, rs[..n]);
      Log(limit, seconds, rs)
      == if Admits(Key(limit, seconds, rs[..n]), limit, seconds, rs[n]) then front + [rs[n].now] else front
  {
    var front := Log(limit, seconds, rs[..|rs| - 1]);
    assert front + [] == front;
  }

  // And every interval as long as the window, its start excluded, holds at most `limit` admissions.
  lemma EveryWindowIsBounded(limit: int, seconds: nat, rs: seq<Request>, s: Time)
    requires Timely(rs) && seconds >= 1 && NoneStraddles(limit, seconds, rs)
    ensures Within(Log(limit, seconds, rs), s, s + seconds) <= AtLeastZero(limit)
  {
    LogIsGated(limit, seconds, rs);
    GatedIsBounded(Log(limit, seconds, rs), limit, seconds, s);
  }

  lemma {:induction false} LastIsEarlier(limit: int, seconds: nat, rs: seq<Request>) returns (j: nat)
    requires Last(limit, seconds, rs).Some?
    ensures j < |rs| && Last(limit, seconds, rs) == Some(rs[j])
  {
    var n := |rs|;
    if Last(limit, seconds, rs) == Some(rs[n - 1]) {
      j := n - 1;
    } else {
      j := LastIsEarlier(limit, seconds, rs[..n - 1]);
    }
  }

  // No request straddles if none takes longer from its clock read to its last command than any before it.
  lemma {:induction false} SteadyRequestsSuffice(limit: int, seconds: nat, rs: seq<Request>)
    requires Timely(rs)
    requires forall i, j | 0 <= i < j < |rs| :: rs[j].armedAt - rs[j].now <= rs[i].armedAt - rs[i].now
    ensures NoneStraddles(limit, seconds, rs)
  {
    var n := |rs|;
    if n > 0 {
      SteadyRequestsSuffice(limit, seconds, rs[..n - 1]);
      if Last(limit, seconds, rs[..n - 1]).Some? {
        var j := LastIsEarlier(limit, seconds, rs[..n - 1]);
        assert rs[..n - 1][j] == rs[j];
        assert EndOf(Run(limit, seconds, rs[..n - 1]), limit, seconds, rs[n - 1]) <= rs[n - 1].armedAt;
      }
    }
  }

  // The second of two requests reads the clock inside the window of the first, and the store counts when
  // the key has just expired: a limit of one lets two through.
  lemma LateCountAdmitsAgain(limit: int, seconds: nat, rs: seq<Request>)
    requires limit == 1 && seconds == 10
    requires rs == [Request(0, 0, 0, 0, 0), Request(9, 10, 10, 10, 10)]
    ensures Timely(rs) && Within(Log(limit, seconds, rs), -1, 9) == 2
  {
    assert rs[..1] == [Request(0, 0, 0, 0, 0)];
    assert rs[..1][..0] == [];
    assert Newer({}, -10) == {};
    var m := Member(0, 0);
    assert Key(limit, seconds, rs[..1]) == Window({m}, Some(10)) by {
      assert {} + {m} == {m};
    }
    assert Counted(Key(limit, seconds, rs[..1]), seconds, rs[1]).members == {} by {
      assert Newer({}, -1) == {};
    }
    assert Log(limit, seconds, rs[..1]) == [0];
    assert Log(limit, seconds, rs) == [0, 9];
    assert [0, 9][..1] == [0] && [0][..0] == [];
  }
}
