/** The log sanitiser: hides the values of sensitive keys, card-like numbers in texts, and everything
    nested too deep. */
module Sanitizer {
  import opened Redaction

  // An ISO 8601 date and time never goes on for twelve characters without one of its separators.
  ghost predicate BreaksWithin(s: string, i: nat) {
    exists k :: i <= k < i + SHORTEST && k < |s| && s[k] in "-:+.T"
  }

  ghost predicate Broken(s: string) {
    forall i: nat | i + SHORTEST <= |s| :: BreaksWithin(s, i)
  }

  type IsoText = s: string | Broken(s)
    ghost witness ""

  // A mapping has its keys in order, each key as the text `str` makes of it: keys that differ may have
  // the same text. `Plain` stands for numbers, booleans, None and objects of any other type.
  datatype Value =
    | Mapping(items: seq<Item>)
    | List(elements: seq<Value>)
    | Tuple(elements: seq<Value>)
    | Text(text: string)
    | Instant(iso: IsoText)
    | Plain(id: int)

  datatype Item = Item(key: string, value: Value)

  const DEPTH := 6
  const TRUNCATED := "[TRUNCATED]"
  const KELVIN := '\U{212A}'

  // Lower case as far as it can make a character a lower-case ASCII letter.
  function Lower(c: char): char {
    if 'A' <= c <= 'Z' then (c as int + 32) as char else if c == KELVIN then 'k' else c
  }

  function LowerCase(s: string): (t: string)
    ensures |t| == |s| && forall i | 0 <= i < |s| :: t[i] == Lower(s[i])
  {
    seq(|s|, i requires 0 <= i < |s| => Lower(s[i]))
  }

  predicate Hides(key: string) {
    LowerCase(key) in ["destination", "pix_key", "beneficiary", "card_number", "pan"]
  }

  // ----- Sanitising -----

  function IndexOf(items: seq<Item>, key: string): (i: nat)
    ensures i <= |items| && (i < |items| ==> items[i].key == key)
    ensures forall j | 0 <= j < i :: items[j].key != key
  {
    if |items| == 0 || items[0].key == key then 0 else 1 + IndexOf(items[1..], key)
  }

  // Assigning to a key of a dictionary: an old key keeps its place, a new one comes last.
  function Put(items: seq<Item>, key: string, value: Value): seq<Item> {
    var i := IndexOf(items, key);
    if i < |items| then items[i := Item(key, value)] else items + [Item(key, value)]
  }

  function Sanitize(a: Alphabet, v: Value, depth: nat): Value
    decreases if depth < DEPTH then DEPTH - depth else 0, 1, 0
  {
    if depth >= DEPTH then Text(TRUNCATED)
    else match v
      case Mapping(items) => Mapping(SanitizeItems(a, items, depth))
      case List(elements) => List(SanitizeElements(a, elements, depth))
      case Tuple(elements) => Tuple(SanitizeElements(a, elements, depth))
      case Text(text) => Text(Redact(a, text))
      case Instant(iso) => Text(iso)
      case Plain(_) => v
  }

  function SanitizeItem(a: Alphabet, item: Item, depth: nat): Value
    requires depth < DEPTH
    decreases DEPTH - depth, 0, 0
  {
    if Hides(item.key) then Text(MARK) else Sanitize(a, item.value, depth + 1)
  }

  function SanitizeItems(a: Alphabet, items: seq<Item>, depth: nat): seq<Item>
    requires depth < DEPTH
    decreases DEPTH - depth, 0, 1 + |items|
  {
    var n := |items|;
    if n == 0 then []
    else Put(SanitizeItems(a, items[..n - 1], depth), items[n - 1].key, SanitizeItem(a, items[n - 1], depth))
  }

  function SanitizeElements(a: Alphabet, elements: seq<Value>, depth: nat): (r: seq<Value>)
    requires depth < DEPTH
    ensures |r| == |elements| && forall i | 0 <= i < |r| :: r[i] == Sanitize(a, elements[i], depth + 1)
    decreases DEPTH - depth, 0, 0
  {
    seq(|elements|, i requires 0 <= i < |elements| => Sanitize(a, elements[i], depth + 1))
  }

  method SanitizeMapping(a: Alphabet, values: seq<Item>, depth: nat) returns (sanitized: seq<Item>)
    requires depth < DEPTH
    ensures sanitized == SanitizeItems(a, values, depth)
  {
    sanitized := [];
    for i := 0 to |values|
      invariant sanitized == SanitizeItems(a, values[..i], depth)
    {
      assert values[..i + 1][..i] == values[..i];
      var key := values[i].key;
      if Hides(key) {
        sanitized := Put(sanitized, key, Text(MARK));
        continue;
      }
      sanitized := Put(sanitized, key, Sanitize(a, values[i].value, depth + 1));
    }
    assert values[..|values|] == values;
  }

  // ----- What the result looks like -----

  // Containers nest at most `n` deep.
  ghost predicate NestsAtMost(v: Value, n: nat) {
    match v
    case Mapping(items) => n > 0 && forall i | 0 <= i < |items| :: NestsAtMost(items[i].value, n - 1)
    case List(es) => n > 0 && forall i | 0 <= i < |es| :: NestsAtMost(es[i], n - 1)
    case Tuple(es) => n > 0 && forall i | 0 <= i < |es| :: NestsAtMost(es[i], n - 1)
    case _ => true
  }

  // No sensitive key has a value other than the marker.
  ghost predicate KeysHidden(v: Value) {
    match v
    case Mapping(items) =>
      forall i | 0 <= i < |items| ::
        (Hides(items[i].key) ==> items[i].value == Text(MARK)) && KeysHidden(items[i].value)
    case List(es) => forall i | 0 <= i < |es| :: KeysHidden(es[i])
    case Tuple(es) => forall i | 0 <= i < |es| :: KeysHidden(es[i])
    case _ => true
  }

  // No text value holds a card-like number, and no date is left that would still be turned into text.
  ghost predicate TextsClean(a: Alphabet, v: Value) {
    match v
    case Mapping(items) => forall i | 0 <= i < |items| :: TextsClean(a, items[i].value)
    case List(es) => forall i | 0 <= i < |es| :: TextsClean(a, es[i])
    case Tuple(es) => forall i | 0 <= i < |es| :: TextsClean(a, es[i])
    case Text(text) => Clean(a, text)
    case Instant(_) => false
    case Plain(_) => true
  }

  ghost predicate DistinctKeys(items: seq<Item>) {
    forall i, j | 0 <= i < j < |items| :: items[i].key != items[j].key
  }

  // What sanitising leaves behind at a depth with room for `n` more levels.
  ghost predicate Sanitized(a: Alphabet, v: Value, n: nat)
    decreases n, 0
  {
    if n == 0 then v == Text(TRUNCATED)
    else match v
      case Mapping(items) => DistinctKeys(items) && AllItems(a, items, n - 1)
      case List(es) => AllElements(a, es, n - 1)
      case Tuple(es) => AllElements(a, es, n - 1)
      case Text(text) => Clean(a, text)
      case Instant(_) => false
      case Plain(_) => true
  }

  ghost predicate SanitizedItem(a: Alphabet, item: Item, n: nat)
    decreases n, 1
  {
    if Hides(item.key) then item.value == Text(MARK) else Sanitized(a, item.value, n)
  }

  ghost predicate AllItems(a: Alphabet, items: seq<Item>, n: nat)
    decreases n, 2
  {
    forall i | 0 <= i < |items| :: SanitizedItem(a, items[i], n)
  }

  ghost predicate AllElements(a: Alphabet, es: seq<Value>, n: nat)
    decreases n, 2
  {
    forall i | 0 <= i < |es| :: Sanitized(a, es[i], n)
  }

  // ----- Texts -----

  lemma {:induction false} NoDigitsInARow(a: Alphabet, inWord: bool, s: string)
    requires Broken(s)
    ensures NoMatch(a, inWord, s)
    decreases |s|
  {
    if |s| > 0 {
      if SHORTEST <= |s| {
        assert BreaksWithin(s, 0);
        var k :| 0 <= k < SHORTEST && k < |s| && s[k] in "-:+.T";
        assert !a.digit(s[k]);
      }
      forall i: nat | i + SHORTEST <= |s[1..]| ensures BreaksWithin(s[1..], i) {
        assert BreaksWithin(s, i + 1);
        var k :| i + 1 <= k < i + 1 + SHORTEST && k < |s| && s[k] in "-:+.T";
        assert s[1..][k - 1] == s[k];
      }
      NoDigitsInARow(a, a.word(s[0]), s[1..]);
    }
  }

  lemma {:induction false} WithoutDigits(a: Alphabet, inWord: bool, s: string)
    requires forall i | 0 <= i < |s| :: !a.digit(s[i])
    ensures NoMatch(a, inWord, s)
    decreases |s|
  {
    if |s| > 0 {
      WithoutDigits(a, a.word(s[0]), s[1..]);
    }
  }

  // ----- Sanitising establishes that shape -----

  lemma PutKeeps(a: Alphabet, items: seq<Item>, item: Item, n: nat)
    requires DistinctKeys(items) && SanitizedItem(a, item, n)
    requires AllItems(a, items, n)
    ensures var r := Put(items, item.key, item.value); DistinctKeys(r) && AllItems(a, r, n)
  {
  }

  lemma {:induction false} ItemsAreSanitized(a: Alphabet, items: seq<Item>, depth: nat)
    requires depth < DEPTH
    ensures DistinctKeys(SanitizeItems(a, items, depth))
    ensures AllItems(a, SanitizeItems(a, items, depth), DEPTH - depth - 1)
    decreases DEPTH - depth, 0, |items|
  {
    var n := |items|;
    if n > 0 {
      var last := items[n - 1];
      ItemsAreSanitized(a, items[..n - 1], depth);
      if !Hides(last.key) {
        ResultIsSanitized(a, last.value, depth + 1);
      }
      PutKeeps(a, SanitizeItems(a, items[..n - 1], depth), Item(last.key, SanitizeItem(a, last, depth)),
               DEPTH - depth - 1);
    }
  }

  lemma {:induction false} ResultIsSanitized(a: Alphabet, v: Value, depth: nat)
    requires depth <= DEPTH
    ensures Sanitized(a, Sanitize(a, v, depth), DEPTH - depth)
    decreases DEPTH - depth, 1, 0
  {
    if depth < DEPTH {
      match v {
        case Mapping(items) => ItemsAreSanitized(a, items, depth);
        case List(es) => ElementsAreSanitized(a, es, depth);
        case Tuple(es) => ElementsAreSanitized(a, es, depth);
        case Text(text) => RedactedIsClean(a, text);
        case Instant(iso) => NoDigitsInARow(a, false, iso);
        case Plain(_) =>
      }
    }
  }

  lemma {:induction false} ElementsAreSanitized(a: Alphabet, es: seq<Value>, depth: nat)
    requires depth < DEPTH
    ensures AllElements(a, SanitizeElements(a, es, depth), DEPTH - depth - 1)
    decreases DEPTH - depth, 0, 0
  {
    forall i | 0 <= i < |es|
      ensures Sanitized(a, SanitizeElements(a, es, depth)[i], DEPTH - depth - 1)
    {
      ResultIsSanitized(a, es[i], depth + 1);
    }
  }

  // ----- That shape is what was promised -----

  lemma {:induction false} SanitizedKeepsPromises(a: Alphabet, v: Value, n: nat)
    requires Sanitized(a, v, n)
    ensures NestsAtMost(v, n) && KeysHidden(v) && TextsClean(a, v)
    decreases n
  {
    if n == 0 {
      WithoutDigits(a, false, TRUNCATED);
    } else {
      match v {
        case Mapping(items) =>
          forall i | 0 <= i < |items|
            ensures Hides(items[i].key) ==> items[i].value == Text(MARK)
            ensures NestsAtMost(items[i].value, n - 1) && KeysHidden(items[i].value) && TextsClean(a, items[i].value)
          {
            assert SanitizedItem(a, items[i], n - 1);
            if Hides(items[i].key) {
              WithoutDigits(a, false, MARK);
            } else {
              SanitizedKeepsPromises(a, items[i].value, n - 1);
            }
          }
        case List(es) =>
          forall i | 0 <= i < |es| ensures NestsAtMost(es[i], n - 1) && KeysHidden(es[i]) && TextsClean(a, es[i]) {
            SanitizedKeepsPromises(a, es[i], n - 1);
          }
        case Tuple(es) =>
          forall i | 0 <= i < |es| ensures NestsAtMost(es[i], n - 1) && KeysHidden(es[i]) && TextsClean(a, es[i]) {
            SanitizedKeepsPromises(a, es[i], n - 1);
          }
        case _ =>
      }
    }
  }

  lemma SanitizeKeepsPromises(a: Alphabet, v: Value)
    ensures var r := Sanitize(a, v, 0);
      NestsAtMost(r, DEPTH) && KeysHidden(r) && TextsClean(a, r)
  {
    ResultIsSanitized(a, v, 0);
    SanitizedKeepsPromises(a, Sanitize(a, v, 0), DEPTH);
  }

  // ----- Sanitising twice -----

  lemma PutNew(items: seq<Item>, key: string, value: Value)
    requires forall i | 0 <= i < |items| :: items[i].key != key
    ensures Put(items, key, value) == items + [Item(key, value)]
  {
  }

  // A mapping whose keys have different texts keeps its keys in order.
  lemma {:induction false} KeysAreKept(a: Alphabet, items: seq<Item>, depth: nat)
    requires depth < DEPTH && DistinctKeys(items)
    ensures var r := SanitizeItems(a, items, depth);
      |r| == |items| && forall i | 0 <= i < |r| :: r[i] == Item(items[i].key, SanitizeItem(a, items[i], depth))
    decreases |items|
  {
    var n := |items|;
    if n > 0 {
      KeysAreKept(a, items[..n - 1], depth);
      PutNew(SanitizeItems(a, items[..n - 1], depth), items[n - 1].key, SanitizeItem(a, items[n - 1], depth));
    }
  }

  lemma PutHolds(items: seq<Item>, key: string, value: Value, other: Item)
    ensures Item(key, value) in Put(items, key, value)
    ensures other in items && other.key != key ==> other in Put(items, key, value)
  {
    var i := IndexOf(items, key);
    var r := Put(items, key, value);
    assert r[i] == Item(key, value);
    if other in items && other.key != key {
      var j :| 0 <= j < |items| && items[j] == other;
      assert r[j] == other;
    }
  }

  // Whatever the keys, the last value under a text is the one that ends up in the result.
  lemma {:induction false} LastValueWins(a: Alphabet, items: seq<Item>, depth: nat, i: nat)
    requires depth < DEPTH && i < |items| && forall j | i < j < |items| :: items[j].key != items[i].key
    ensures Item(items[i].key, SanitizeItem(a, items[i], depth)) in SanitizeItems(a, items, depth)
    decreases |items|
  {
    var n := |items|;
    var kept := Item(items[i].key, SanitizeItem(a, items[i], depth));
    PutHolds(SanitizeItems(a, items[..n - 1], depth), items[n - 1].key, SanitizeItem(a, items[n - 1], depth), kept);
    if i < n - 1 {
      LastValueWins(a, items[..n - 1], depth, i);
    }
  }

  lemma {:induction false} ItemsStay(a: Alphabet, items: seq<Item>, depth: nat)
    requires depth < DEPTH && DistinctKeys(items) && AllItems(a, items, DEPTH - depth - 1)
    ensures SanitizeItems(a, items, depth) == items
    decreases DEPTH - depth, 0
  {
    KeysAreKept(a, items, depth);
    forall i | 0 <= i < |items| ensures SanitizeItem(a, items[i], depth) == items[i].value {
      assert SanitizedItem(a, items[i], DEPTH - depth - 1);
      if !Hides(items[i].key) {
        SanitizedStays(a, items[i].value, depth + 1);
      }
    }
  }

  lemma {:induction false} ElementsStay(a: Alphabet, es: seq<Value>, depth: nat)
    requires depth < DEPTH && AllElements(a, es, DEPTH - depth - 1)
    ensures SanitizeElements(a, es, depth) == es
    decreases DEPTH - depth, 0
  {
    forall i | 0 <= i < |es| ensures Sanitize(a, es[i], depth + 1) == es[i] {
      SanitizedStays(a, es[i], depth + 1);
    }
  }

  lemma {:induction false} SanitizedStays(a: Alphabet, v: Value, depth: nat)
    requires depth <= DEPTH && Sanitized(a, v, DEPTH - depth)
    ensures Sanitize(a, v, depth) == v
    decreases DEPTH - depth, 1
  {
    if depth < DEPTH {
      match v {
        case Mapping(items) => ItemsStay(a, items, depth);
        case List(es) => ElementsStay(a, es, depth);
        case Tuple(es) => ElementsStay(a, es, depth);
        case Text(text) => UnchangedExactlyWhen(a, false, text);
        case Plain(_) =>
      }
    }
  }

  lemma SanitizeTwice(a: Alphabet, v: Value)
    ensures Sanitize(a, Sanitize(a, v, 0), 0) == Sanitize(a, v, 0)
  {
    ResultIsSanitized(a, v, 0);
    SanitizedStays(a, Sanitize(a, v, 0), 0);
  }

  // ----- What becomes of every value -----

  predicate SameUpToCase(c: char, lower: char) {
    || c == lower
    || ('A' <= c <= 'Z' && c as int + 'a' as int - 'A' as int == lower as int)
    || (c == KELVIN && lower == 'k')
  }

  // The key is one of the sensitive names in some mixture of cases.
  ghost predicate Spells(key: string, name: string) {
    |key| == |name| && forall i | 0 <= i < |key| :: SameUpToCase(key[i], name[i])
  }

  lemma SpelledExactlyWhen(key: string, name: string)
    requires forall i | 0 <= i < |name| :: 'a' <= name[i] <= 'z' || name[i] == '_'
    ensures LowerCase(key) == name <==> Spells(key, name)
  {
    if LowerCase(key) == name {
      forall i | 0 <= i < |key| ensures SameUpToCase(key[i], name[i]) {
        assert LowerCase(key)[i] == Lower(key[i]);
      }
    }
    if Spells(key, name) {
      forall i | 0 <= i < |key| ensures LowerCase(key)[i] == name[i] {
        assert SameUpToCase(key[i], name[i]);
      }
      assert LowerCase(key) == name;
    }
  }

  // These keys are hidden, in every mixture of cases, and no others.
  lemma HidesExactly(key: string)
    ensures Hides(key) <==> Spells(key, "destination") || Spells(key, "pix_key") || Spells(key, "beneficiary")
                            || Spells(key, "card_number") || Spells(key, "pan")
  {
    SpelledExactlyWhen(key, "destination");
    SpelledExactlyWhen(key, "pix_key");
    SpelledExactlyWhen(key, "beneficiary");
    SpelledExactlyWhen(key, "card_number");
    SpelledExactlyWhen(key, "pan");
  }

  // No later item has the same key text.
  predicate IsLast(items: seq<Item>, i: nat)
    requires i < |items|
  {
    forall j | i < j < |items| :: items[j].key != items[i].key
  }

  ghost predicate HasKey(items: seq<Item>, key: string) {
    exists i :: 0 <= i < |items| && items[i].key == key
  }

  // `w` is what the value `v` becomes with room for `n` more levels: a text is rewritten word by word, a date
  // is its text, containers keep their kind and their elements in order, and a mapping has one item for each
  // key text, with what becomes of the last value under it.
  ghost predicate Renders(a: Alphabet, v: Value, w: Value, n: nat)
    decreases n, 0
  {
    if n == 0 then w == Text("[TRUNCATED]")
    else match v
      case Text(text) => w == Text(ByWords(a, text))
      case Instant(iso) => w == Text(iso)
      case Plain(_) => w == v
      case List(es) => w.List? && ElementsRender(a, es, w.elements, n - 1)
      case Tuple(es) => w.Tuple? && ElementsRender(a, es, w.elements, n - 1)
      case Mapping(items) =>
        && w.Mapping? && DistinctKeys(w.items)
        && (forall key :: HasKey(w.items, key) <==> HasKey(items, key))
        && forall i: nat, j: nat | i < |items| && IsLast(items, i) && j < |w.items| && w.items[j].key == items[i].key ::
             ItemRenders(a, items[i], w.items[j].value, n - 1)
  }

  ghost predicate ItemRenders(a: Alphabet, item: Item, w: Value, n: nat)
    decreases n, 1
  {
    if Hides(item.key) then w == Text("[REDACTED]") else Renders(a, item.value, w, n)
  }

  ghost predicate ElementsRender(a: Alphabet, es: seq<Value>, ws: seq<Value>, n: nat)
    decreases n, 1
  {
    |ws| == |es| && forall i | 0 <= i < |es| :: Renders(a, es[i], ws[i], n)
  }

  lemma PutKeys(items: seq<Item>, key: string, value: Value, other: string)
    ensures HasKey(Put(items, key, value), other) <==> HasKey(items, other) || other == key
  {
    var r := Put(items, key, value);
    var i := IndexOf(items, key);
    assert r[i].key == key;
    if HasKey(items, other) {
      var j :| 0 <= j < |items| && items[j].key == other;
      assert r[j].key == other;
    }
  }

  lemma {:induction false} ResultHasKeys(a: Alphabet, items: seq<Item>, depth: nat, key: string)
    requires depth < DEPTH
    ensures HasKey(SanitizeItems(a, items, depth), key) <==> HasKey(items, key)
    decreases |items|
  {
    var n := |items|;
    if n > 0 {
      ResultHasKeys(a, items[..n - 1], depth, key);
      PutKeys(SanitizeItems(a, items[..n - 1], depth), items[n - 1].key, SanitizeItem(a, items[n - 1], depth), key);
      if HasKey(items, key) && items[n - 1].key != key {
        var j :| 0 <= j < |items| && items[j].key == key;
        assert items[..n - 1][j].key == key;
      }
    }
  }

  lemma OneItemForEachKey(items: seq<Item>, i: nat, j: nat)
    requires DistinctKeys(items) && i < |items| && j < |items| && items[i].key == items[j].key
    ensures i == j
  {
  }

  lemma ItemHasItsValue(a: Alphabet, items: seq<Item>, depth: nat, i: nat, r: seq<Item>, j: nat)
    requires depth < DEPTH && i < |items| && IsLast(items, i) && r == SanitizeItems(a, items, depth)
    requires j < |r| && r[j].key == items[i].key
    ensures r[j].value == SanitizeItem(a, items[i], depth)
  {
    LastValueWins(a, items, depth, i);
    ItemsAreSanitized(a, items, depth);
    var k :| 0 <= k < |r| && r[k] == Item(items[i].key, SanitizeItem(a, items[i], depth));
    OneItemForEachKey(r, j, k);
  }

  lemma {:induction false} ItemIsRendered(a: Alphabet, item: Item, depth: nat)
    requires depth < DEPTH
    ensures ItemRenders(a, item, SanitizeItem(a, item, depth), DEPTH - depth - 1)
    decreases DEPTH - depth, 0
  {
    if !Hides(item.key) {
      IsRendered(a, item.value, depth + 1);
    }
  }

  lemma {:induction false} ElementsAreRendered(a: Alphabet, es: seq<Value>, depth: nat)
    requires depth < DEPTH
    ensures ElementsRender(a, es, SanitizeElements(a, es, depth), DEPTH - depth - 1)
    decreases DEPTH - depth, 0
  {
    forall i | 0 <= i < |es| ensures Renders(a, es[i], SanitizeElements(a, es, depth)[i], DEPTH - depth - 1) {
      IsRendered(a, es[i], depth + 1);
    }
  }

  lemma {:induction false} IsRendered(a: Alphabet, v: Value, depth: nat)
    requires depth <= DEPTH
    ensures Renders(a, v, Sanitize(a, v, depth), DEPTH - depth)
    decreases DEPTH - depth, 1
  {
    if depth < DEPTH {
      match v {
        case Mapping(items) =>
          var r := SanitizeItems(a, items, depth);
          ItemsAreSanitized(a, items, depth);
          forall key ensures HasKey(r, key) <==> HasKey(items, key) {
            ResultHasKeys(a, items, depth, key);
          }
          forall i: nat, j: nat | i < |items| && IsLast(items, i) && j < |r| && r[j].key == items[i].key
            ensures ItemRenders(a, items[i], r[j].value, DEPTH - depth - 1)
          {
            ItemHasItsValue(a, items, depth, i, r, j);
            ItemIsRendered(a, items[i], depth);
          }
        case List(es) => ElementsAreRendered(a, es, depth);
        case Tuple(es) => ElementsAreRendered(a, es, depth);
        case Text(text) => RedactsByWords(a, text);
        case _ =>
      }
    }
  }

  // Every value at every place becomes exactly that, six levels deep.
  lemma SanitizeRenders(a: Alphabet, v: Value)
    ensures Renders(a, v, Sanitize(a, v, 0), 6)
  {
    IsRendered(a, v, 0);
  }
}
