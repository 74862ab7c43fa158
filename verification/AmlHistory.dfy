/** The AML history of a customer: a trimmed, expiring list of printed entries, against the full log of
    the payments recorded for that customer. */
module AmlHistory {
  import opened Contracts
  import opened AmlEntry

  // The clock counts microseconds; entries hold whole seconds.
  const MICROS := 1_000_000

  function Second(t: Time): int {
    t / MICROS
  }

  // Trimming to the range 0 .. 500 keeps both ends.
  const KEPT := 501

  // The list under one key, newest entry first, and when the key goes away.
  datatype Key = Key(entries: seq<string>, expiresAt: Option<Time>)

  const NO_KEY := Key([], None)

  // What a command finds at time `t`.
  function Found(k: Key, t: Time): Key {
    if k.expiresAt.Some? && k.expiresAt.value <= t then NO_KEY else k
  }

  function Newest<T>(list: seq<T>): seq<T> {
    if |list| > KEPT then list[..KEPT] else list
  }

  // What reading the range 0 .. 500 answers.
  function Shown(k: Key, t: Time): seq<string> {
    Newest(Found(k, t).entries)
  }

  // How far the three commands of a recording get, and when the store executes them.
  datatype Reach = PushFails | TrimFails | ExpireFails | AllAnswer

  datatype Commands = Commands(pushAt: Time, trimAt: Time, armedAt: Time)

  function Pushed(k: Key, t: Time, text: string): Key {
    Key([text] + Found(k, t).entries, Found(k, t).expiresAt)
  }

  function Trimmed(k: Key, t: Time): Key {
    Key(Newest(Found(k, t).entries), Found(k, t).expiresAt)
  }

  function Armed(k: Key, t: Time, ttl: nat): Key {
    if Found(k, t).entries == [] then NO_KEY else Key(Found(k, t).entries, Some(t + ttl * MICROS))
  }

  function Recorded(k: Key, c: Commands, text: string, ttl: nat, reach: Reach): Key {
    match reach
    case PushFails => k
    case TrimFails => Pushed(k, c.pushAt, text)
    case ExpireFails => Trimmed(Pushed(k, c.pushAt, text), c.trimAt)
    case AllAnswer => Armed(Trimmed(Pushed(k, c.pushAt, text), c.trimAt), c.armedAt, ttl)
  }

  // ----- Amounts -----

  function Power(e: int): (p: real)
    ensures p > 0.0
    decreases if e < 0 then -e else e
  {
    if e == 0 then 1.0 else if e > 0 then 10.0 * Power(e - 1) else Power(e + 1) / 10.0
  }

  function Amount(d: Decimal): real {
    var size := d.coefficient as real * Power(d.exponent);
    if d.negative then -size else size
  }

  function Ten(n: nat): nat {
    if n == 0 then 1 else 10 * Ten(n - 1)
  }

  lemma {:induction false} PowerIsTen(n: nat)
    ensures Power(n) == Ten(n) as real && Power(0 - n) * Ten(n) as real == 1.0
  {
    if n > 0 {
      PowerIsTen(n - 1);
      var e := 0 - n;
      assert Power(e) == Power(e + 1) / 10.0;
      assert Ten(n) as real == 10.0 * Ten(n - 1) as real;
      Cancel(Power(e + 1), Ten(n - 1) as real);
    }
  }

  lemma Cancel(p: real, t: real)
    ensures p / 10.0 * (10.0 * t) == p * t
  {
  }

  lemma Rescale(c: real, p: real, t: real)
    requires p * t == 1.0
    ensures c * p * t == c
  {
    assert c * p * t == c * (p * t);
  }

  // The amount is the number the sign, the digits and the point stand for.
  lemma AmountIsTheNumber(d: Decimal)
    ensures var digits := if d.negative then -(d.coefficient as real) else d.coefficient as real;
      if d.exponent >= 0 then Amount(d) == digits * Ten(d.exponent) as real
      else Amount(d) * Ten(-d.exponent) as real == digits
  {
    var n := if d.exponent >= 0 then d.exponent else -d.exponent;
    PowerIsTen(n);
    if d.exponent < 0 {
      Rescale(d.coefficient as real, Power(d.exponent), Ten(n) as real);
    }
  }

  // ----- What a list of entries adds up to -----

  predicate Matches(e: Option<Entry>, rail: string, cutoff: int) {
    e.Some? && e.value.timestamp >= cutoff && e.value.rail == rail
  }

  function Worth(e: Option<Entry>, rail: string, cutoff: int): real {
    if Matches(e, rail, cutoff) then Amount(e.value.amount) else 0.0
  }

  function Tally(e: Option<Entry>, rail: string, cutoff: int, low: real, high: real): nat {
    if Matches(e, rail, cutoff) && low <= Amount(e.value.amount) <= high then 1 else 0
  }

  // The entries of a list, nothing for each text that is none.
  function Parsed(texts: seq<string>): (es: seq<Option<Entry>>)
    ensures |es| == |texts| && forall i | 0 <= i < |texts| :: es[i] == TryParse(texts[i])
  {
    seq(|texts|, i requires 0 <= i < |texts| => TryParse(texts[i]))
  }

  function SumOfEntries(es: seq<Option<Entry>>, rail: string, cutoff: int): real {
    var n := |es|;
    if n == 0 then 0.0 else SumOfEntries(es[..n - 1], rail, cutoff) + Worth(es[n - 1], rail, cutoff)
  }

  function CountOfEntries(es: seq<Option<Entry>>, rail: string, cutoff: int, low: real, high: real): nat {
    var n := |es|;
    if n == 0 then 0
    else CountOfEntries(es[..n - 1], rail, cutoff, low, high) + Tally(es[n - 1], rail, cutoff, low, high)
  }

  function SumOfTexts(texts: seq<string>, rail: string, cutoff: int): real {
    SumOfEntries(Parsed(texts), rail, cutoff)
  }

  function CountOfTexts(texts: seq<string>, rail: string, cutoff: int, low: real, high: real): nat {
    CountOfEntries(Parsed(texts), rail, cutoff, low, high)
  }

  function Decide(blocked: bool, total: real, near: nat, amount: real, threshold: real, maxAmount: real,
                  structuring: int): Decision {
    if blocked then Block
    else if total + amount > threshold then Review
    else if near + (if amount >= maxAmount * 0.95 then 1 else 0) >= structuring then Review
    else Allow
  }

  function Longer(a: nat, b: nat): nat {
    if a >= b then a else b
  }

  // When a read takes the clock for its cutoff and when the store reads the list; without an answer the
  // database's figure is used.
  datatype Reading = Reading(clock: Time, readAt: Time, answers: bool, dbTotal: real, dbCount: nat)

  function OneIf(b: bool): nat {
    if b then 1 else 0
  }

  // The key is what recording the log leaves, and the reading sees all of it that counts in the window.
  ghost predicate Shows(log: seq<Outgoing>, ttl: nat, key: Key, window: nat, r: Reading) {
    && r.answers && Positive(log) && GoodLog(log, r.readAt) && key == Replay(log, ttl)
    && Sees(log, ttl, window, r.clock, r.readAt)
  }

  // The two figures of a reading, and those of a log.
  function SumShown(key: Key, r: Reading, rail: string, cutoff: int): real {
    SumOfTexts(Shown(key, r.readAt), rail, cutoff)
  }

  function NearShown(key: Key, r: Reading, rail: string, cutoff: int, low: real, high: real): nat {
    CountOfTexts(Shown(key, r.readAt), rail, cutoff, low, high)
  }

  lemma SumShowsTheLog(log: seq<Outgoing>, ttl: nat, key: Key, window: nat, r: Reading, rail: string, cutoff: int)
    requires Shows(log, ttl, key, window, r) && cutoff == Second(r.clock) - window
    ensures SumShown(key, r, rail, cutoff) == SumOfLog(log, rail, cutoff)
  {
    AgreesUpTo501(log, ttl, window, r.clock, r.readAt, rail, cutoff, 0.0, 0.0);
  }

  lemma NearShowsTheLog(log: seq<Outgoing>, ttl: nat, key: Key, window: nat, r: Reading, rail: string, cutoff: int,
                        low: real, high: real)
    requires Shows(log, ttl, key, window, r) && cutoff == Second(r.clock) - window
    ensures NearShown(key, r, rail, cutoff, low, high) == CountOfLog(log, rail, cutoff, low, high)
  {
    AgreesUpTo501(log, ttl, window, r.clock, r.readAt, rail, cutoff, low, high);
  }

  // Both readings show the log.
  ghost predicate BothShow(log: seq<Outgoing>, ttl: nat, key: Key, totalWindow: nat, structuringWindow: nat,
                           first: Reading, second: Reading)
  {
    Shows(log, ttl, key, totalWindow, first) && Shows(log, ttl, key, structuringWindow, second)
  }

  lemma FiguresOfTheLog(log: seq<Outgoing>, ttl: nat, key: Key, totalWindow: nat, structuringWindow: nat,
                        first: Reading, second: Reading, rail: string, since: int, since': int, low: real, high: real)
    requires since == Second(first.clock) - totalWindow && since' == Second(second.clock) - structuringWindow
    ensures BothShow(log, ttl, key, totalWindow, structuringWindow, first, second) ==>
      && first.answers && second.answers
      && SumShown(key, first, rail, since) == SumOfLog(log, rail, since)
      && NearShown(key, second, rail, since', low, high) == CountOfLog(log, rail, since', low, high)
  {
    if BothShow(log, ttl, key, totalWindow, structuringWindow, first, second) {
      SumShowsTheLog(log, ttl, key, totalWindow, first, rail, since);
      NearShowsTheLog(log, ttl, key, structuringWindow, second, rail, since', low, high);
    }
  }

  // Too much is outgoing with this payment, or too many payments lie near the maximum.
  predicate Suspicious(total: real, near: nat, amount: real, threshold: real, maxAmount: real, structuring: int) {
    total + amount > threshold || near + OneIf(amount >= maxAmount * 0.95) >= structuring
  }

  lemma SuspicionIsThatOfTheLog(log: seq<Outgoing>, ttl: nat, key: Key, totalWindow: nat, structuringWindow: nat,
                                first: Reading, second: Reading, rail: string, maxAmount: real, total: real, near: nat,
                                amount: real, threshold: real, structuring: int, since: int, since': int, low: real)
    requires since == Second(first.clock) - totalWindow && since' == Second(second.clock) - structuringWindow
    requires first.answers ==> total == SumShown(key, first, rail, since)
    requires second.answers ==> near == NearShown(key, second, rail, since', low, maxAmount)
    ensures BothShow(log, ttl, key, totalWindow, structuringWindow, first, second) ==>
      (Suspicious(total, near, amount, threshold, maxAmount, structuring)
       <==> Suspicious(SumOfLog(log, rail, since), CountOfLog(log, rail, since', low, maxAmount),
                       amount, threshold, maxAmount, structuring))
  {
    FiguresOfTheLog(log, ttl, key, totalWindow, structuringWindow, first, second, rail, since, since', low, maxAmount);
  }

  class AmlRuleEngine {
    var redis: map<string, Key>
    const blocklist: set<string>
    const totalWindow: nat
    const totalThreshold: real
    const structuringWindow: nat
    const structuringCount: int

    constructor (blocklist: set<string>, totalWindow: nat, totalThreshold: real,
                 structuringWindow: nat, structuringCount: int)
      ensures redis == map[] && this.blocklist == blocklist
      ensures this.totalWindow == totalWindow && this.totalThreshold == totalThreshold
      ensures this.structuringWindow == structuringWindow && this.structuringCount == structuringCount
    {
      redis := map[];
      this.blocklist, this.totalWindow, this.totalThreshold := blocklist, totalWindow, totalThreshold;
      this.structuringWindow, this.structuringCount := structuringWindow, structuringCount;
    }

    function KeyOf(customer: string): Key
      reads this
    {
      if customer in redis then redis[customer] else NO_KEY
    }

    function TimeToLive(): nat {
      Longer(totalWindow, structuringWindow)
    }

    method RecordOutgoing(customer: string, rail: string, amount: Decimal, now: Time, c: Commands, reach: Reach)
      requires now >= 0
      modifies this
      ensures redis == old(redis)[customer :=
        Recorded(old(KeyOf(customer)), c, Write(Second(now), rail, amount), TimeToLive(), reach)]
    {
      var k := KeyOf(customer);
      var payload := Write(Second(now), rail, amount);
      if reach != PushFails {
        k := Key([payload] + Found(k, c.pushAt).entries, Found(k, c.pushAt).expiresAt);
        if reach != TrimFails {
          k := Trimmed(k, c.trimAt);
          if reach != ExpireFails {
            k := Armed(k, c.armedAt, TimeToLive());
          }
        }
      }
      redis := redis[customer := k];
    }

    method ReadHistoryEntries(customer: string, r: Reading) returns (entries: Option<seq<string>>)
      ensures entries == if r.answers then Some(Shown(KeyOf(customer), r.readAt)) else None
    {
      if !r.answers {
        return None;
      }
      return Some(Shown(KeyOf(customer), r.readAt));
    }

    method SumRecent(entries: seq<string>, rail: string, cutoff: int) returns (total: real)
      ensures total == SumOfTexts(entries, rail, cutoff)
    {
      total := 0.0;
      ghost var es := Parsed(entries);
      for i := 0 to |entries|
        invariant total == SumOfEntries(es[..i], rail, cutoff)
      {
        assert es[..i + 1][..i] == es[..i];
        var parsed := TryParse(entries[i]);
        if parsed.None? {
          continue;
        }
        if parsed.value.timestamp >= cutoff && parsed.value.rail == rail {
          total := total + Amount(parsed.value.amount);
        }
      }
      assert es[..|entries|] == es;
    }

    method CountNear(entries: seq<string>, rail: string, cutoff: int, low: real, high: real) returns (count: nat)
      ensures count == CountOfTexts(entries, rail, cutoff, low, high)
    {
      count := 0;
      ghost var es := Parsed(entries);
      for i := 0 to |entries|
        invariant count == CountOfEntries(es[..i], rail, cutoff, low, high)
      {
        assert es[..i + 1][..i] == es[..i];
        var parsed := TryParse(entries[i]);
        if parsed.None? {
          continue;
        }
        if parsed.value.timestamp < cutoff || parsed.value.rail != rail {
          continue;
        }
        if low <= Amount(parsed.value.amount) <= high {
          count := count + 1;
        }
      }
      assert es[..|entries|] == es;
    }

    function TotalSeen(customer: string, rail: string, r: Reading): real
      reads this
    {
      if r.answers
      then SumShown(KeyOf(customer), r, rail, Second(r.clock) - totalWindow)
      else r.dbTotal
    }

    function NearSeen(customer: string, rail: string, maxAmount: real, r: Reading): nat
      reads this
    {
      if r.answers
      then NearShown(KeyOf(customer), r, rail, Second(r.clock) - structuringWindow, maxAmount * 0.95, maxAmount)
      else r.dbCount
    }

    method TotalOutgoingRecent(customer: string, rail: string, r: Reading) returns (total: real)
      ensures total == TotalSeen(customer, rail, r)
    {
      var entries := ReadHistoryEntries(customer, r);
      if entries.None? {
        return r.dbTotal;
      }
      total := SumRecent(entries.value, rail, Second(r.clock) - totalWindow);
    }

    method NearThresholdCount(customer: string, rail: string, maxAmount: real, r: Reading) returns (count: nat)
      ensures count == NearSeen(customer, rail, maxAmount, r)
    {
      var entries := ReadHistoryEntries(customer, r);
      if entries.None? {
        return r.dbCount;
      }
      count := CountNear(entries.value, rail, Second(r.clock) - structuringWindow, maxAmount * 0.95, maxAmount);
    }

    // A payment to a destination on the blocklist is blocked. It is reviewed when, with it, too much is
    // outgoing or too many payments lie near the maximum, by what the readings show. If both readings show a
    // key that `log` explains, that is what the log shows; if the store answers neither, it is what the
    // database shows.
    method Evaluate(customer: string, rail: string, amount: real, destination: Option<string>, maxAmount: real,
                    first: Reading, second: Reading, ghost log: seq<Outgoing>)
      returns (decision: Decision)
      ensures decision == Block
        <==> destination.Some? && destination.value != "" && destination.value in blocklist
      ensures decision == Review
        <==> decision != Block
             && (TotalSeen(customer, rail, first) + amount > totalThreshold
                 || NearSeen(customer, rail, maxAmount, second) + (if amount >= maxAmount * 0.95 then 1 else 0)
                    >= structuringCount)
      ensures BothShow(log, TimeToLive(), KeyOf(customer), totalWindow, structuringWindow, first, second) ==>
        (decision == Review
         <==> decision != Block
              && Suspicious(SumOfLog(log, rail, Second(first.clock) - totalWindow),
                            CountOfLog(log, rail, Second(second.clock) - structuringWindow, maxAmount * 0.95,
                                       maxAmount),
                            amount, totalThreshold, maxAmount, structuringCount))
      ensures !first.answers && !second.answers ==>
        (decision == Review
         <==> decision != Block
              && Suspicious(first.dbTotal, second.dbCount, amount, totalThreshold, maxAmount, structuringCount))
      ensures decision ==
        Decide(destination.Some? && destination.value != "" && destination.value in blocklist,
               TotalSeen(customer, rail, first), NearSeen(customer, rail, maxAmount, second),
               amount, totalThreshold, maxAmount, structuringCount)
    {
      SuspicionIsThatOfTheLog(
        log, TimeToLive(), KeyOf(customer), totalWindow, structuringWindow, first, second, rail, maxAmount,
        TotalSeen(customer, rail, first), NearSeen(customer, rail, maxAmount, second), amount, totalThreshold,
        structuringCount, Second(first.clock) - totalWindow, Second(second.clock) - structuringWindow,
        maxAmount * 0.95);
      if destination.Some? && destination.value != "" && destination.value in blocklist {
        return Block;
      }
      var total := TotalOutgoingRecent(customer, rail, first);
      if total + amount > totalThreshold {
        return Review;
      }
      var near := NearThresholdCount(customer, rail, maxAmount, second);
      if amount >= maxAmount * 0.95 {
        near := near + 1;
      }
      if near >= structuringCount {
        return Review;
      }
      return Allow;
    }
  }

  // ----- The full log -----

  datatype Outgoing = Outgoing(at: Time, commands: Commands, rail: string, amount: Decimal)

  predicate InOrder(o: Outgoing) {
    0 <= o.at <= o.commands.pushAt <= o.commands.trimAt <= o.commands.armedAt
  }

  // The payments recorded for one customer over all rails by the time `t`, newest first, one recording
  // after the other.
  ghost predicate GoodLog(log: seq<Outgoing>, t: Time) {
    && (forall i | 0 <= i < |log| :: InOrder(log[i]) && log[i].commands.armedAt <= t && BAR !in log[i].rail)
    && (forall i, j | 0 <= i < j < |log| ::
          log[j].at <= log[i].at && log[j].commands.armedAt <= log[i].commands.pushAt)
  }

  function TextOf(o: Outgoing): string
    requires o.at >= 0
  {
    Write(Second(o.at), o.rail, o.amount)
  }

  predicate Counts(o: Outgoing, rail: string, cutoff: int) {
    Second(o.at) >= cutoff && o.rail == rail
  }

  predicate Near(o: Outgoing, rail: string, cutoff: int, low: real, high: real) {
    Counts(o, rail, cutoff) && low <= Amount(o.amount) <= high
  }

  function SumOfLog(log: seq<Outgoing>, rail: string, cutoff: int): real {
    var n := |log|;
    if n == 0 then 0.0
    else SumOfLog(log[..n - 1], rail, cutoff)
         + (if Counts(log[n - 1], rail, cutoff) then Amount(log[n - 1].amount) else 0.0)
  }

  function CountOfLog(log: seq<Outgoing>, rail: string, cutoff: int, low: real, high: real): nat {
    var n := |log|;
    if n == 0 then 0
    else CountOfLog(log[..n - 1], rail, cutoff, low, high)
         + (if Near(log[n - 1], rail, cutoff, low, high) then 1 else 0)
  }

  // How many payments of the log, over all rails, are not older than the cutoff.
  function Recent(log: seq<Outgoing>, cutoff: int): nat {
    var n := |log|;
    if n == 0 then 0 else Recent(log[..n - 1], cutoff) + (if Second(log[n - 1].at) >= cutoff then 1 else 0)
  }

  // The key after every payment of the log was recorded, the oldest first.
  function Replay(log: seq<Outgoing>, ttl: nat): Key
    requires forall i | 0 <= i < |log| :: log[i].at >= 0
  {
    if |log| == 0 then NO_KEY
    else Recorded(Replay(log[1..], ttl), log[0].commands, TextOf(log[0]), ttl, AllAnswer)
  }

  // When the key armed by a payment expires.
  function ExpiryOf(o: Outgoing, ttl: nat): Time {
    o.commands.armedAt + ttl * MICROS
  }

  // Payment `i` is pushed before the key of the one before it expires, but armed after that.
  predicate Straddles(log: seq<Outgoing>, ttl: nat, i: nat)
    requires i < |log|
  {
    i + 1 < |log| && log[i].commands.pushAt < ExpiryOf(log[i + 1], ttl) <= log[i].commands.armedAt
  }

  // How many of the newest payments a read at `t` finds. A straddling recording loses the whole list, if
  // there is one, and itself.
  function Visible(log: seq<Outgoing>, ttl: nat, t: Time): (n: nat)
    ensures n <= |log| && n <= KEPT
    ensures n > 0 ==> t < ExpiryOf(log[0], ttl)
  {
    if |log| == 0 || ExpiryOf(log[0], ttl) <= t then 0
    else
      var older := Visible(log[1..], ttl, log[0].commands.pushAt);
      if older > 0 && ExpiryOf(log[1], ttl) <= log[0].commands.armedAt then 0
      else if older + 1 > KEPT then KEPT
      else older + 1
  }

  // ----- The list holds the newest payments -----

  function EntryOf(o: Outgoing): Entry {
    Entry(Second(o.at), o.rail, o.amount)
  }

  predicate ReadsAs(text: string, o: Outgoing) {
    TryParse(text) == Some(EntryOf(o))
  }

  ghost predicate Prints(texts: seq<string>, log: seq<Outgoing>) {
    |texts| == |log| && forall i | 0 <= i < |log| :: ReadsAs(texts[i], log[i])
  }

  // A list without entries does not exist.
  predicate Proper(k: Key) {
    k.entries == [] ==> k == NO_KEY
  }

  // What a recording makes of a key, unless it straddles the expiry.
  lemma RecordedKey(k: Key, c: Commands, text: string, ttl: nat)
    requires Proper(k) && c.pushAt <= c.trimAt <= c.armedAt
    ensures var f := Found(k, c.pushAt); var after := Recorded(k, c, text, ttl, AllAnswer);
      && Proper(after)
      && after == if f.expiresAt.Some? && f.expiresAt.value <= c.armedAt then NO_KEY
                  else Key(Newest([text] + f.entries), Some(c.armedAt + ttl * MICROS))
  {
  }

  // Whatever fails behind the push, the payment is the newest entry until the key it was pushed to expires.
  lemma PushedIsNewest(k: Key, c: Commands, text: string, ttl: nat, reach: Reach, t: Time)
    requires Proper(k) && c.pushAt <= c.trimAt <= c.armedAt <= t < c.armedAt + ttl * MICROS && reach != PushFails
    requires var f := Found(k, c.pushAt); f.expiresAt.Some? ==> t < f.expiresAt.value
    ensures Shown(Recorded(k, c, text, ttl, reach), t) == Newest([text] + Found(k, c.pushAt).entries)
    ensures Shown(Recorded(k, c, text, ttl, reach), t)[0] == text
    ensures Recorded(k, c, text, ttl, reach).expiresAt
         == if reach == AllAnswer then Some(c.armedAt + ttl * MICROS) else Found(k, c.pushAt).expiresAt
  {
  }

  lemma NothingPushed(k: Key, c: Commands, text: string, ttl: nat)
    ensures Recorded(k, c, text, ttl, PushFails) == k
  {
  }

  lemma {:induction false} ReplayIsProper(log: seq<Outgoing>, ttl: nat, t: Time)
    requires GoodLog(log, t)
    ensures Proper(Replay(log, ttl))
  {
    if |log| > 0 {
      assert GoodLog(log[1..], log[0].commands.pushAt);
      ReplayIsProper(log[1..], ttl, log[0].commands.pushAt);
      RecordedKey(Replay(log[1..], ttl), log[0].commands, TextOf(log[0]), ttl);
    }
  }

  function AtMostKept(n: nat): nat {
    if n > KEPT then KEPT else n
  }

  lemma OneMoreVisible(log: seq<Outgoing>, ttl: nat, t: Time, n: nat)
    requires |log| > 0 && n == Visible(log[1..], ttl, log[0].commands.pushAt)
    ensures n < |log|
    ensures Visible(log, ttl, t)
         == if ExpiryOf(log[0], ttl) <= t || (n > 0 && ExpiryOf(log[1], ttl) <= log[0].commands.armedAt) then 0
            else AtMostKept(n + 1)
  {
  }

  // The list behind a recording that does not straddle the expiry.
  lemma OneMoreListed(before: Key, log: seq<Outgoing>, n: nat)
    requires |log| > 0 && InOrder(log[0]) && BAR !in log[0].rail && n < |log|
    requires Prints(before.entries, log[1..][..n])
    ensures Prints(Newest([TextOf(log[0])] + before.entries), log[..AtMostKept(n + 1)])
  {
    EntryRoundTrip(Second(log[0].at), log[0].rail, log[0].amount);
    OneMorePrinted(TextOf(log[0]), before.entries, log, n);
    NewestPrints([TextOf(log[0])] + before.entries, log[..n + 1]);
    assert Newest(log[..n + 1]) == log[..AtMostKept(n + 1)];
  }

  // What a read finds behind a recording that itself found `n` entries until `expiry`.
  lemma FoundAfter(before: Key, o: Outgoing, ttl: nat, t: Time, n: nat, expiry: Time)
    requires InOrder(o) && Proper(before) && |Found(before, o.commands.pushAt).entries| == n
    requires n > 0 ==> Found(before, o.commands.pushAt).expiresAt == Some(expiry)
    ensures Found(Recorded(before, o.commands, TextOf(o), ttl, AllAnswer), t)
         == if ExpiryOf(o, ttl) <= t || (n > 0 && expiry <= o.commands.armedAt) then NO_KEY
            else Key(Newest([TextOf(o)] + Found(before, o.commands.pushAt).entries), Some(ExpiryOf(o, ttl)))
  {
    RecordedKey(before, o.commands, TextOf(o), ttl);
    assert n == 0 ==> Found(before, o.commands.pushAt) == NO_KEY;
  }

  lemma OneMoreRecording(before: Key, after: Key, log: seq<Outgoing>, ttl: nat, t: Time, n: nat, v: nat)
    requires |log| > 0 && InOrder(log[0]) && BAR !in log[0].rail && Proper(before)
    requires n == Visible(log[1..], ttl, log[0].commands.pushAt) && v == Visible(log, ttl, t)
    requires Prints(Found(before, log[0].commands.pushAt).entries, log[1..][..n])
    requires n > 0 ==> Found(before, log[0].commands.pushAt).expiresAt == Some(ExpiryOf(log[1], ttl))
    requires after == Found(Recorded(before, log[0].commands, TextOf(log[0]), ttl, AllAnswer), t)
    ensures Prints(after.entries, log[..v]) && (v > 0 ==> after.expiresAt == Some(ExpiryOf(log[0], ttl)))
  {
    OneMoreVisible(log, ttl, t, n);
    var expiry := if n > 0 then ExpiryOf(log[1], ttl) else 0;
    FoundAfter(before, log[0], ttl, t, n, expiry);
    OneMoreListed(Found(before, log[0].commands.pushAt), log, n);
  }

  lemma {:induction false} ReplayKeepsNewest(log: seq<Outgoing>, ttl: nat, t: Time)
    requires GoodLog(log, t)
    ensures Prints(Found(Replay(log, ttl), t).entries, log[..Visible(log, ttl, t)])
    ensures Shown(Replay(log, ttl), t) == Found(Replay(log, ttl), t).entries
    ensures Visible(log, ttl, t) > 0 ==> Found(Replay(log, ttl), t).expiresAt == Some(ExpiryOf(log[0], ttl))
  {
    if |log| > 0 {
      var pushAt := log[0].commands.pushAt;
      assert GoodLog(log[1..], pushAt);
      ReplayKeepsNewest(log[1..], ttl, pushAt);
      ReplayIsProper(log[1..], ttl, pushAt);
      OneMoreRecording(Replay(log[1..], ttl), Found(Replay(log, ttl), t), log, ttl, t,
                       Visible(log[1..], ttl, pushAt), Visible(log, ttl, t));
    }
  }

  lemma NewestPrints(texts: seq<string>, log: seq<Outgoing>)
    requires Prints(texts, log)
    ensures Prints(Newest(texts), Newest(log))
  {
  }

  lemma OneMorePrinted(text: string, shown: seq<string>, log: seq<Outgoing>, n: nat)
    requires |log| > 0 && n < |log| && Prints(shown, log[1..][..n]) && ReadsAs(text, log[0])
    ensures Prints([text] + shown, log[..n + 1])
  {
    forall i | 0 <= i < n + 1
      ensures ReadsAs(([text] + shown)[i], log[..n + 1][i])
    {
      if i > 0 {
        assert ReadsAs(shown[i - 1], log[1..][..n][i - 1]);
        assert log[1..][..n][i - 1] == log[..n + 1][i];
      }
    }
  }

  lemma {:induction false} EntriesAddUp(es: seq<Option<Entry>>, log: seq<Outgoing>, rail: string, cutoff: int,
                                        low: real, high: real)
    requires |es| == |log| && forall i | 0 <= i < |log| :: es[i] == Some(EntryOf(log[i]))
    ensures SumOfEntries(es, rail, cutoff) == SumOfLog(log, rail, cutoff)
    ensures CountOfEntries(es, rail, cutoff, low, high) == CountOfLog(log, rail, cutoff, low, high)
  {
    var n := |log|;
    if n > 0 {
      assert es[n - 1] == Some(EntryOf(log[n - 1]));
      EntriesAddUp(es[..n - 1], log[..n - 1], rail, cutoff, low, high);
    }
  }

  lemma TextsAddUp(texts: seq<string>, log: seq<Outgoing>, rail: string, cutoff: int, low: real, high: real)
    requires Prints(texts, log)
    ensures SumOfTexts(texts, rail, cutoff) == SumOfLog(log, rail, cutoff)
    ensures CountOfTexts(texts, rail, cutoff, low, high) == CountOfLog(log, rail, cutoff, low, high)
  {
    EntriesAddUp(Parsed(texts), log, rail, cutoff, low, high);
  }

  // ----- What leaving out the older payments changes -----

  ghost predicate Positive(log: seq<Outgoing>) {
    forall i | 0 <= i < |log| :: Amount(log[i].amount) > 0.0
  }

  lemma {:induction false} SumOfNewest(log: seq<Outgoing>, k: nat, rail: string, cutoff: int)
    requires k <= |log| && Positive(log)
    ensures SumOfLog(log[..k], rail, cutoff) <= SumOfLog(log, rail, cutoff)
    ensures SumOfLog(log[..k], rail, cutoff) == SumOfLog(log, rail, cutoff)
        <==> forall j | k <= j < |log| :: !Counts(log[j], rail, cutoff)
  {
    var n := |log|;
    if k == n {
      assert log[..k] == log;
    } else {
      SumOfNewest(log[..n - 1], k, rail, cutoff);
      assert log[..n - 1][..k] == log[..k];
      assert forall j | k <= j < n - 1 :: log[..n - 1][j] == log[j];
      if Counts(log[n - 1], rail, cutoff) {
        assert SumOfLog(log[..k], rail, cutoff) < SumOfLog(log, rail, cutoff);
      }
    }
  }

  lemma {:induction false} CountOfNewest(log: seq<Outgoing>, k: nat, rail: string, cutoff: int, low: real, high: real)
    requires k <= |log|
    ensures CountOfLog(log[..k], rail, cutoff, low, high) <= CountOfLog(log, rail, cutoff, low, high)
    ensures CountOfLog(log[..k], rail, cutoff, low, high) == CountOfLog(log, rail, cutoff, low, high)
        <==> forall j | k <= j < |log| :: !Near(log[j], rail, cutoff, low, high)
  {
    var n := |log|;
    if k == n {
      assert log[..k] == log;
    } else {
      CountOfNewest(log[..n - 1], k, rail, cutoff, low, high);
      assert log[..n - 1][..k] == log[..k];
      assert forall j | k <= j < n - 1 :: log[..n - 1][j] == log[j];
      if Near(log[n - 1], rail, cutoff, low, high) {
        assert CountOfLog(log[..k], rail, cutoff, low, high) < CountOfLog(log, rail, cutoff, low, high);
      }
    }
  }

  // A read never finds more than the full log holds, and it finds the same exactly when no payment that
  // counts is out of sight.
  lemma SumIsExactlyThatOfTheLogWhen(log: seq<Outgoing>, ttl: nat, t: Time, rail: string, cutoff: int)
    requires GoodLog(log, t) && Positive(log)
    ensures SumOfTexts(Shown(Replay(log, ttl), t), rail, cutoff) <= SumOfLog(log, rail, cutoff)
    ensures SumOfTexts(Shown(Replay(log, ttl), t), rail, cutoff) == SumOfLog(log, rail, cutoff)
        <==> forall j | Visible(log, ttl, t) <= j < |log| :: !Counts(log[j], rail, cutoff)
  {
    var k := Visible(log, ttl, t);
    ReplayKeepsNewest(log, ttl, t);
    TextsAddUp(Shown(Replay(log, ttl), t), log[..k], rail, cutoff, 0.0, 0.0);
    SumOfNewest(log, k, rail, cutoff);
  }

  lemma CountIsExactlyThatOfTheLogWhen(log: seq<Outgoing>, ttl: nat, t: Time, rail: string, cutoff: int,
                                       low: real, high: real)
    requires GoodLog(log, t)
    ensures CountOfTexts(Shown(Replay(log, ttl), t), rail, cutoff, low, high)
         <= CountOfLog(log, rail, cutoff, low, high)
    ensures CountOfTexts(Shown(Replay(log, ttl), t), rail, cutoff, low, high)
         == CountOfLog(log, rail, cutoff, low, high)
        <==> forall j | Visible(log, ttl, t) <= j < |log| :: !Near(log[j], rail, cutoff, low, high)
  {
    var k := Visible(log, ttl, t);
    ReplayKeepsNewest(log, ttl, t);
    TextsAddUp(Shown(Replay(log, ttl), t), log[..k], rail, cutoff, low, high);
    CountOfNewest(log, k, rail, cutoff, low, high);
  }

  // ----- When a payment is out of sight -----

  // A payment is out of sight only behind 501 newer ones, when the time to live has passed since its
  // recording, or when its own recording straddled the expiry of the key.
  lemma {:induction false} LostOnlyWhen(log: seq<Outgoing>, ttl: nat, t: Time, j: nat)
    requires GoodLog(log, t) && Visible(log, ttl, t) <= j < |log|
    ensures j >= 501 || log[j].at + ttl * MICROS <= t || Straddles(log, ttl, j)
  {
    assert log[j].at <= log[0].at;
    if j > 0 {
      assert log[1..][j - 1] == log[j];
      assert log[j].at <= log[1].at;
      if t < ExpiryOf(log[0], ttl) && Visible(log[1..], ttl, log[0].commands.pushAt) <= j - 1 {
        assert GoodLog(log[1..], log[0].commands.pushAt);
        LostOnlyWhen(log[1..], ttl, log[0].commands.pushAt, j - 1);
      }
    }
  }

  lemma {:induction false} RecentOfPrefix(log: seq<Outgoing>, cutoff: int, j: nat)
    requires j < |log| && forall i | 0 <= i <= j :: Second(log[i].at) >= cutoff
    ensures Recent(log, cutoff) >= j + 1
  {
    var n := |log|;
    if j < n - 1 {
      RecentOfPrefix(log[..n - 1], cutoff, j);
    } else if j > 0 {
      RecentOfPrefix(log[..n - 1], cutoff, j - 1);
    }
  }

  // Payment `i`, if it is in the window, is younger than the time to live when the list is read, and its
  // recording did not straddle the expiry of the key.
  predicate Young(log: seq<Outgoing>, ttl: nat, window: nat, clock: Time, readAt: Time, i: nat)
    requires i < |log|
  {
    Second(log[i].at) >= Second(clock) - window ==>
      readAt < log[i].at + ttl * MICROS && !Straddles(log, ttl, i)
  }

  // At most 501 payments of the customer are in the window, and all of these are young.
  ghost predicate Sees(log: seq<Outgoing>, ttl: nat, window: nat, clock: Time, readAt: Time) {
    && Recent(log, Second(clock) - window) <= 501
    && forall i | 0 <= i < |log| :: Young(log, ttl, window, clock, readAt, i)
  }

  // A window that ends a second or more before the time to live leaves the read that much time.
  lemma ShortWindowSees(log: seq<Outgoing>, ttl: nat, window: nat, clock: Time, readAt: Time)
    requires Recent(log, Second(clock) - window) <= 501 && readAt - clock <= (ttl - window - 1) * MICROS
    requires forall i | 0 <= i < |log| :: !Straddles(log, ttl, i)
    ensures Sees(log, ttl, window, clock, readAt)
  {
  }

  lemma CountingIsInSight(log: seq<Outgoing>, ttl: nat, window: nat, clock: Time, readAt: Time, j: nat)
    requires GoodLog(log, readAt) && Sees(log, ttl, window, clock, readAt)
    requires Visible(log, ttl, readAt) <= j < |log|
    ensures Second(log[j].at) < Second(clock) - window
  {
    assert Young(log, ttl, window, clock, readAt, j);
    LostOnlyWhen(log, ttl, readAt, j);
    if j >= 501 && Second(log[j].at) >= Second(clock) - window {
      NewerAreRecent(log, readAt, Second(clock) - window, j);
    }
  }

  lemma NewerAreRecent(log: seq<Outgoing>, t: Time, cutoff: int, j: nat)
    requires GoodLog(log, t) && j < |log| && Second(log[j].at) >= cutoff
    ensures Recent(log, cutoff) >= j + 1
  {
    RecentOfPrefix(log, cutoff, j);
  }

  // Then sum and count are those of the full log.
  lemma AgreesUpTo501(log: seq<Outgoing>, ttl: nat, window: nat, clock: Time, readAt: Time, rail: string,
                      cutoff: int, low: real, high: real)
    requires GoodLog(log, readAt) && Positive(log) && Sees(log, ttl, window, clock, readAt)
    requires cutoff == Second(clock) - window
    ensures SumOfTexts(Shown(Replay(log, ttl), readAt), rail, cutoff) == SumOfLog(log, rail, cutoff)
    ensures CountOfTexts(Shown(Replay(log, ttl), readAt), rail, cutoff, low, high)
         == CountOfLog(log, rail, cutoff, low, high)
  {
    forall j | Visible(log, ttl, readAt) <= j < |log|
      ensures !Counts(log[j], rail, cutoff) && !Near(log[j], rail, cutoff, low, high)
    {
      CountingIsInSight(log, ttl, window, clock, readAt, j);
    }
    SumIsExactlyThatOfTheLogWhen(log, ttl, readAt, rail, cutoff);
    CountIsExactlyThatOfTheLogWhen(log, ttl, readAt, rail, cutoff, low, high);
  }

  // Then the decision is the one the full log would give, each reading with its own clock and read.
  lemma DecisionIsThatOfTheLog(log: seq<Outgoing>, ttl: nat, totalWindow: nat, structuringWindow: nat,
                               first: Reading, second: Reading, since: int, since': int,
                               rail: string, low: real, maxAmount: real,
                               blocked: bool, amount: real, threshold: real, structuring: int)
    requires GoodLog(log, first.readAt) && GoodLog(log, second.readAt) && Positive(log)
    requires Sees(log, ttl, totalWindow, first.clock, first.readAt)
    requires Sees(log, ttl, structuringWindow, second.clock, second.readAt)
    requires since == Second(first.clock) - totalWindow && since' == Second(second.clock) - structuringWindow
    ensures Decide(blocked, SumOfTexts(Shown(Replay(log, ttl), first.readAt), rail, since),
                   CountOfTexts(Shown(Replay(log, ttl), second.readAt), rail, since', low, maxAmount),
                   amount, threshold, maxAmount, structuring)
         == Decide(blocked, SumOfLog(log, rail, since), CountOfLog(log, rail, since', low, maxAmount),
                   amount, threshold, maxAmount, structuring)
  {
    AgreesUpTo501(log, ttl, totalWindow, first.clock, first.readAt, rail, since, low, maxAmount);
    AgreesUpTo501(log, ttl, structuringWindow, second.clock, second.readAt, rail, since', low, maxAmount);
  }

  // ----- The exceptions are real -----

  // A payment whose three commands take no time.
  function At(t: Time, rail: string, amount: Decimal): Outgoing {
    Outgoing(t, Commands(t, t, t), rail, amount)
  }

  lemma SumOfOne(o: Outgoing, rail: string, cutoff: int)
    ensures SumOfLog([o], rail, cutoff) == if Counts(o, rail, cutoff) then Amount(o.amount) else 0.0
  {
    assert [o][..0] == [];
    assert SumOfLog([], rail, cutoff) == 0.0;
  }

  lemma NothingVisible(log: seq<Outgoing>, ttl: nat, t: Time, rail: string, cutoff: int)
    requires GoodLog(log, t) && Visible(log, ttl, t) == 0
    ensures SumOfTexts(Shown(Replay(log, ttl), t), rail, cutoff) == 0.0
  {
    ReplayKeepsNewest(log, ttl, t);
  }

  // In the second in which its window ends a payment still counts in the log, but its key is gone when the
  // window is the time to live.
  lemma ExpiryLosesTheLastSecond(rail: string, amount: Decimal)
    requires BAR !in rail && Amount(amount) > 0.0
    ensures var log := [At(1000_000_000, rail, amount)]; var now := 1600_500_000;
      && GoodLog(log, now) && Second(now) - 600 == 1000
      && SumOfTexts(Shown(Replay(log, 600), now), rail, 1000) == 0.0
      && SumOfLog(log, rail, 1000) == Amount(amount)
  {
    NothingVisible([At(1000_000_000, rail, amount)], 600, 1600_500_000, rail, 1000);
    SumOfOne(At(1000_000_000, rail, amount), rail, 1000);
  }

  // A read that crosses a second loses a payment of a later second as well.
  lemma LateReadLosesMore(rail: string, amount: Decimal)
    requires BAR !in rail && Amount(amount) > 0.0
    ensures var log := [At(1001_000_000, rail, amount)]; var clock, readAt := 1600_999_999, 1601_000_000;
      && GoodLog(log, readAt) && Second(clock) - 600 == 1000
      && SumOfTexts(Shown(Replay(log, 600), readAt), rail, 1000) == 0.0
      && SumOfLog(log, rail, 1000) == Amount(amount)
  {
    NothingVisible([At(1001_000_000, rail, amount)], 600, 1601_000_000, rail, 1000);
    SumOfOne(At(1001_000_000, rail, amount), rail, 1000);
  }

  // A recording that straddles the expiry of the key loses the payment it records.
  lemma StraddlingLosesItself(rail: string, amount: Decimal, newest: Outgoing, older: Outgoing)
    requires BAR !in rail && Amount(amount) > 0.0 && older == At(0, rail, amount)
    requires newest == Outgoing(599_000_000, Commands(599_000_000, 599_000_000, 600_000_000), rail, amount)
    ensures GoodLog([newest, older], 600_000_000) && Straddles([newest, older], 600, 0)
    ensures SumOfTexts(Shown(Replay([newest, older], 600), 600_000_000), rail, 1) == 0.0
    ensures SumOfLog([newest, older], rail, 1) == Amount(amount)
  {
    var log := [newest, older];
    assert log[1..] == [older] && log[..1] == [newest];
    assert Visible([older], 600, 599_000_000) == 1;
    assert Visible(log, 600, 600_000_000) == 0;
    NothingVisible(log, 600, 600_000_000, rail, 1);
    SumOfOne(newest, rail, 1);
    assert !Counts(older, rail, 1);
  }

  // Seeing less never makes the rules stricter.
  lemma LessHistoryIsNeverStricter(blocked: bool, total: real, total': real, near: nat, near': nat,
                                   amount: real, threshold: real, maxAmount: real, structuring: int)
    requires total <= total' && near <= near'
    ensures var d := Decide(blocked, total, near, amount, threshold, maxAmount, structuring);
      var d' := Decide(blocked, total', near', amount, threshold, maxAmount, structuring);
      (d == Review ==> d' == Review) && (d == Block <==> d' == Block)
  {
  }
}
