/**
 Parameters of a request: the find-driven parse loop, and the map it fills, whose keys are
 compared without regard to case and whose entries are never overwritten by the parser.
 */
module Params {
  import opened Wrappers
  import opened ByteSpec
  import opened Url
  import Ascii

  const EQUALS: Byte := 0x3D
  const AMPERSAND: Byte := 0x26
  const SEMICOLON: Byte := 0x3B
  /** Blank, tab, carriage return and line feed, the default of Trim. */
  const BLANKS: set<Byte> := {0x20, 0x09, 0x0D, 0x0A}

  // ---------------------------------------------------------------- the map

  function Lower(b: Byte): Byte {
    if 0x41 <= b <= 0x5A then b + 0x20 else b
  }

  /** What strcasecmp looks at: up to the first NUL, in lower case. */
  function Folded(key: seq<Byte>): seq<Byte> {
    if key == [] || key[0] == 0 then [] else [Lower(key[0])] + Folded(key[1..])
  }

  /** The same byte, or the same letter in the other case. */
  ghost predicate SameButCase(a: Byte, b: Byte) {
    || a == b
    || exists i :: 0 <= i < 26 && ((Ascii.Is(a, Ascii.UPPER_LETTERS[i]) && Ascii.Is(b, Ascii.LOWER_LETTERS[i]))
                                   || (Ascii.Is(a, Ascii.LOWER_LETTERS[i]) && Ascii.Is(b, Ascii.UPPER_LETTERS[i])))
  }

  lemma LowerMeans(a: Byte, b: Byte)
    ensures Lower(a) == Lower(b) <==> SameButCase(a, b)
  {
    forall i | 0 <= i < 26
      ensures Ascii.UPPER_LETTERS[i] as int == 0x41 + i && Ascii.LOWER_LETTERS[i] as int == 0x61 + i
    {
      Ascii.LettersAre(i);
    }
    if a != b && Lower(a) == Lower(b) {
      var i := (if a < b then a else b) - 0x41;
      assert 0 <= i < 26 && (Ascii.Is(a, Ascii.UPPER_LETTERS[i]) || Ascii.Is(a, Ascii.LOWER_LETTERS[i]));
    }
  }

  /** Where a C string ends. */
  function TextLen(s: seq<Byte>): (n: nat)
    ensures n <= |s| && (forall i :: 0 <= i < n ==> s[i] != 0) && (n < |s| ==> s[n] == 0)
  {
    if s == [] || s[0] == 0 then 0 else 1 + TextLen(s[1..])
  }

  lemma {:induction false} FoldedAt(s: seq<Byte>)
    ensures |Folded(s)| == TextLen(s) && forall i :: 0 <= i < TextLen(s) ==> Folded(s)[i] == Lower(s[i])
  {
    if s != [] && s[0] != 0 {
      FoldedAt(s[1..]);
    }
  }

  /** Equal for strcasecmp. */
  ghost predicate SameKey(a: seq<Byte>, b: seq<Byte>) {
    TextLen(a) == TextLen(b) && forall i :: 0 <= i < TextLen(a) ==> SameButCase(a[i], b[i])
  }

  lemma FoldedMeans(a: seq<Byte>, b: seq<Byte>)
    ensures Folded(a) == Folded(b) <==> SameKey(a, b)
  {
    FoldedAt(a);
    FoldedAt(b);
    forall i | 0 <= i < TextLen(a) && i < TextLen(b)
      ensures Folded(a)[i] == Folded(b)[i] <==> SameButCase(a[i], b[i])
    {
      LowerMeans(a[i], b[i]);
    }
    hide SameButCase;
    hide Lower;
  }

  datatype Entry = Entry(key: seq<Byte>, value: seq<Byte>)

  /** A std::map ordered by strcasecmp, indexed by what the order can tell apart. */
  type Dict = map<seq<Byte>, Entry>

  /** std::map::insert leaves an entry that is already there. */
  function Inserted(m: Dict, e: Entry): Dict {
    if Folded(e.key) in m then m else m[Folded(e.key) := e]
  }

  function InsertedAll(m: Dict, es: seq<Entry>): Dict
    decreases |es|
  {
    if es == [] then m else InsertedAll(Inserted(m, es[0]), es[1..])
  }

  function Lookup(m: Dict, key: seq<Byte>): Option<seq<Byte>> {
    if Folded(key) in m then Some(m[Folded(key)].value) else None
  }

  /** The first entry whose key is key but for case. */
  function FirstOf(es: seq<Entry>, key: seq<Byte>): Option<seq<Byte>> {
    if es == [] then None else if Folded(es[0].key) == Folded(key) then Some(es[0].value) else FirstOf(es[1..], key)
  }

  /** First wins. */
  lemma {:induction false} LookupFirst(m: Dict, es: seq<Entry>, key: seq<Byte>)
    ensures Lookup(InsertedAll(m, es), key) == if Lookup(m, key).Some? then Lookup(m, key) else FirstOf(es, key)
    decreases |es|
  {
    if es != [] {
      LookupFirst(Inserted(m, es[0]), es[1..], key);
    }
  }

  lemma {:induction false} FirstMeans(es: seq<Entry>, key: seq<Byte>)
    ensures FirstOf(es, key).None? ==> forall i :: 0 <= i < |es| ==> !SameKey(es[i].key, key)
    ensures FirstOf(es, key).Some? ==>
              exists j :: 0 <= j < |es| && SameKey(es[j].key, key) && FirstOf(es, key) == Some(es[j].value)
                       && forall i :: 0 <= i < j ==> !SameKey(es[i].key, key)
  {
    hide SameKey;
    if es != [] {
      FoldedMeans(es[0].key, key);
      var rest := es[1..];
      FirstMeans(rest, key);
      if Folded(es[0].key) == Folded(key) {
        assert SameKey(es[0].key, key);
      } else if FirstOf(rest, key).Some? {
        var j :| 0 <= j < |rest| && SameKey(rest[j].key, key) && FirstOf(rest, key) == Some(rest[j].value)
                  && forall i :: 0 <= i < j ==> !SameKey(rest[i].key, key);
        assert es[j+1] == rest[j] && forall i :: 1 <= i <= j ==> es[i] == rest[i-1];
      } else {
        assert forall i :: 1 <= i < |es| ==> es[i] == rest[i-1];
      }
    }
  }

  // ---------------------------------------------------------------- the loop

  predicate Absent(s: seq<Byte>, b: Byte, from: nat, to: nat) {
    to <= |s| && forall i :: from <= i < to ==> s[i] != b
  }

  /** std::string::find; None stands for npos. */
  function Find(s: seq<Byte>, b: Byte, from: nat): (r: Option<nat>)
    ensures r.Some? ==> from <= r.value < |s| && s[r.value] == b && Absent(s, b, from, r.value)
    ensures r.None? ==> Absent(s, b, from, |s|)
    decreases |s| - from
  {
    if from >= |s| then None else if s[from] == b then Some(from) else Find(s, b, from + 1)
  }

  /** std::string::substr, by its two ends. */
  function Part(s: seq<Byte>, from: nat, to: nat): seq<Byte>
    requires from <= to <= |s|
  {
    s[from..to]
  }

  /** The key ends at key, where the equals sign is, and the value at end. */
  function EntryAt(str: seq<Byte>, pos: nat, key: nat, end: nat): Entry
    requires pos <= key < end <= |str|
  {
    Entry(Trim(Part(str, pos, key), BLANKS), Decoded(Part(str, key + 1, end), true))
  }

  /** The entries from position pos on. */
  function Entries(str: seq<Byte>, pos: nat, flag: Byte): seq<Entry>
    requires flag != EQUALS
    decreases |str| - pos
  {
    match Find(str, EQUALS, pos)
    case None => []
    case Some(key) =>
      (match Find(str, flag, key)
       case None => [EntryAt(str, pos, key, |str|)]
       case Some(end) => [EntryAt(str, pos, key, end)] + Entries(str, end + 1, flag))
  }

  method MakeEntry(str: seq<Byte>, pos: nat, key: nat, end: nat) returns (e: Entry)
    requires pos <= key < end <= |str|
    ensures e == EntryAt(str, pos, key, end)
  {
    var value := UrlDecode(Part(str, key + 1, end), true);
    e := Entry(Trim(Part(str, pos, key), BLANKS), value);
  }

  lemma InsertedOne(m: Dict, e: Entry, es: seq<Entry>)
    ensures InsertedAll(m, [e] + es) == InsertedAll(Inserted(m, e), es)
    ensures InsertedAll(m, [e]) == Inserted(m, e)
  {
    assert ([e] + es)[1..] == es;
    assert [e][1..] == [];
  }

  /** One round of the loop, by what the two searches find. */
  lemma NoneLeft(m: Dict, str: seq<Byte>, pos: nat, flag: Byte)
    requires flag != EQUALS && Find(str, EQUALS, pos).None?
    ensures InsertedAll(m, Entries(str, pos, flag)) == m
  {}

  lemma EntriesLast(str: seq<Byte>, pos: nat, flag: Byte, key: nat)
    requires flag != EQUALS && Find(str, EQUALS, pos) == Some(key) && Find(str, flag, key).None?
    ensures Entries(str, pos, flag) == [EntryAt(str, pos, key, |str|)]
  {
    hide Find;
    hide Absent;
    hide EntryAt;
  }

  lemma EntriesNext(str: seq<Byte>, pos: nat, flag: Byte, key: nat, end: nat)
    requires flag != EQUALS && Find(str, EQUALS, pos) == Some(key) && Find(str, flag, key) == Some(end)
    ensures pos <= key < end < |str|
    ensures Entries(str, pos, flag) == [EntryAt(str, pos, key, end)] + Entries(str, end + 1, flag)
  {
    hide Find;
    hide Absent;
    hide EntryAt;
  }

  lemma LastEntry(m: Dict, str: seq<Byte>, pos: nat, flag: Byte, key: nat)
    requires flag != EQUALS && Find(str, EQUALS, pos) == Some(key) && Find(str, flag, key).None?
    ensures InsertedAll(m, Entries(str, pos, flag)) == Inserted(m, EntryAt(str, pos, key, |str|))
  {
    hide *;
    EntriesLast(str, pos, flag, key);
    InsertedOne(m, EntryAt(str, pos, key, |str|), []);
  }

  lemma NextEntry(m: Dict, str: seq<Byte>, pos: nat, flag: Byte, key: nat, end: nat)
    requires flag != EQUALS && Find(str, EQUALS, pos) == Some(key) && Find(str, flag, key) == Some(end)
    ensures pos <= key < end < |str|
    ensures InsertedAll(m, Entries(str, pos, flag))
         == InsertedAll(Inserted(m, EntryAt(str, pos, key, end)), Entries(str, end + 1, flag))
  {
    hide *;
    EntriesNext(str, pos, flag, key, end);
    InsertedOne(m, EntryAt(str, pos, key, end), Entries(str, end + 1, flag));
  }

  /** One turn of the loop: next is where the search goes on, None if this was the end. */
  method ParseOne(str: seq<Byte>, pos: nat, m: Dict, flag: Byte) returns (r: Dict, next: Option<nat>)
    requires flag != EQUALS
    ensures next.None? ==> r == InsertedAll(m, Entries(str, pos, flag))
    ensures next.Some? ==>
              pos < next.value <= |str|
              && InsertedAll(m, Entries(str, pos, flag)) == InsertedAll(r, Entries(str, next.value, flag))
  {
    hide *;
    var at := Find(str, EQUALS, pos);
    if at == None {
      NoneLeft(m, str, pos, flag);
      return m, None;
    }
    var key := at.value;
    at := Find(str, flag, key);
    var e := MakeEntry(str, pos, key, if at.None? then |str| else at.value);
    r := Inserted(m, e);
    if at == None {
      LastEntry(m, str, pos, flag, key);
      return r, None;
    }
    NextEntry(m, str, pos, flag, key, at.value);
    return r, Some(at.value + 1);
  }

  /** The parse loop. */
  method Parse(str: seq<Byte>, m: Dict, flag: Byte) returns (r: Dict)
    requires flag != EQUALS
    ensures r == InsertedAll(m, Entries(str, 0, flag))
  {
    r := m;
    var next: Option<nat> := Some(0);
    hide *;
    while next.Some?
      invariant next.Some? ==> next.value <= |str|
      invariant InsertedAll(m, Entries(str, 0, flag))
             == if next.Some? then InsertedAll(r, Entries(str, next.value, flag)) else r
      decreases if next.Some? then |str| - next.value + 1 else 0
    {
      r, next := ParseOne(str, next.value, r, flag);
    }
  }

  // ---------------------------------------------------------------- what any text parses to

  /** A key up to its equals sign and a value up to its separator, just as they stand in the text. */
  datatype Raw = Raw(key: seq<Byte>, value: seq<Byte>)

  predicate IsRaw(p: Raw, flag: Byte) {
    EQUALS !in p.key && flag !in p.value
  }

  function RawPair(p: Raw): seq<Byte> {
    p.key + [EQUALS] + p.value
  }

  /** The pairs with separators between them, and what is left behind the last separator. */
  function RawText(ps: seq<Raw>, tail: Option<seq<Byte>>, flag: Byte): seq<Byte> {
    if ps == [] then (if tail.Some? then tail.value else [])
    else RawPair(ps[0]) + if |ps| == 1 && tail.None? then [] else [flag] + RawText(ps[1..], tail, flag)
  }

  ghost predicate IsRawText(ps: seq<Raw>, tail: Option<seq<Byte>>, flag: Byte) {
    (forall i :: 0 <= i < |ps| ==> IsRaw(ps[i], flag)) && (tail.Some? ==> EQUALS !in tail.value)
  }

  /** The key without its outer blanks, the value decoded. */
  function Cooked(p: Raw): Entry {
    Entry(Trim(p.key, BLANKS), Decoded(p.value, true))
  }

  function CookedAll(ps: seq<Raw>): seq<Entry> {
    if ps == [] then [] else [Cooked(ps[0])] + CookedAll(ps[1..])
  }

  lemma FindIs(s: seq<Byte>, b: Byte, from: nat, at: nat)
    requires from <= at < |s| && s[at] == b && Absent(s, b, from, at)
    ensures Find(s, b, from) == Some(at)
  {}

  lemma FindNone(s: seq<Byte>, b: Byte, from: nat)
    requires Absent(s, b, from, |s|)
    ensures Find(s, b, from) == None
  {}

  /** Where the parts of a pair are. */
  lemma PairParts(before: seq<Byte>, p: Raw, flag: Byte, after: seq<Byte>)
    requires IsRaw(p, flag) && flag != EQUALS
    ensures var str, pos := before + RawPair(p) + after, |before|;
            var key, end := pos + |p.key|, pos + |RawPair(p)|;
            && pos <= key < end <= |str| && str[key] == EQUALS
            && Part(str, pos, key) == p.key && Part(str, key + 1, end) == p.value
            && Absent(str, EQUALS, pos, key) && Absent(str, flag, key, end)
  {
    var str, pos := before + RawPair(p) + after, |before|;
    var key, end := pos + |p.key|, pos + |RawPair(p)|;
    assert str == before + p.key + [EQUALS] + p.value + after;
    forall i | pos <= i < key
      ensures str[i] != EQUALS
    {
      assert str[i] == p.key[i - pos];
    }
    forall i | key < i < end
      ensures str[i] != flag
    {
      assert str[i] == p.value[i - key - 1] && p.value[i - key - 1] in p.value;
    }
  }

  lemma EntryIs(before: seq<Byte>, p: Raw, after: seq<Byte>)
    ensures var str, key, end := before + RawPair(p) + after, |before| + |p.key|, |before| + |RawPair(p)|;
            |before| <= key < end <= |str| && EntryAt(str, |before|, key, end) == Cooked(p)
  {
    var str, key, end := before + RawPair(p) + after, |before| + |p.key|, |before| + |RawPair(p)|;
    assert Part(str, |before|, key) == p.key;
    assert Part(str, key + 1, end) == p.value;
    hide Part;
    hide Trim;
    hide Decoded;
  }

  lemma EntriesIs(str: seq<Byte>, pos: nat, flag: Byte, key: nat, end: nat)
    requires flag != EQUALS && pos <= key < end <= |str|
    requires str[key] == EQUALS && Absent(str, EQUALS, pos, key) && Absent(str, flag, key, end)
    requires end < |str| ==> str[end] == flag
    ensures Entries(str, pos, flag)
         == [EntryAt(str, pos, key, end)] + if end == |str| then [] else Entries(str, end + 1, flag)
  {
    hide Find;
    hide Absent;
    hide EntryAt;
    FindIs(str, EQUALS, pos, key);
    if end < |str| {
      FindIs(str, flag, key, end);
    } else {
      FindNone(str, flag, key);
    }
  }

  lemma RightBehind(before: seq<Byte>, pair: seq<Byte>, after: seq<Byte>)
    ensures |before + pair + after| == |before| + |pair| + |after|
    ensures after != [] ==> (before + pair + after)[|before| + |pair|] == after[0]
  {}

  /** One pair, at some place, with the separator or the end behind it. */
  lemma PairAt(before: seq<Byte>, p: Raw, flag: Byte, after: seq<Byte>)
    requires IsRaw(p, flag) && flag != EQUALS && (after != [] ==> after[0] == flag)
    ensures var str := before + RawPair(p) + after;
            Entries(str, |before|, flag) ==
            [Cooked(p)] + if after == [] then [] else Entries(str, |before| + |RawPair(p)| + 1, flag)
  {
    hide *;
    PairParts(before, p, flag, after);
    EntryIs(before, p, after);
    RightBehind(before, RawPair(p), after);
    EntriesIs(before + RawPair(p) + after, |before|, flag, |before| + |p.key|, |before| + |RawPair(p)|);
  }

  lemma NoEntries(before: seq<Byte>, tail: seq<Byte>, flag: Byte)
    requires flag != EQUALS && EQUALS !in tail
    ensures Entries(before + tail, |before|, flag) == []
  {
    var s := before + tail;
    assert forall i :: |before| <= i < |s| ==> s[i] == tail[i - |before|];
    FindNone(s, EQUALS, |before|);
  }

  /** Cut any text at each first separator behind each first equals sign: the pieces, cooked, are
      its entries, whatever keys and values look like; what has no equals sign is none. */
  lemma {:induction false} EntriesOfRaw(before: seq<Byte>, ps: seq<Raw>, tail: Option<seq<Byte>>, flag: Byte)
    requires flag != EQUALS && IsRawText(ps, tail, flag)
    ensures Entries(before + RawText(ps, tail, flag), |before|, flag) == CookedAll(ps)
    decreases |ps|
  {
    hide Entries;
    hide RawPair;
    hide Cooked;
    hide IsRaw;
    hide Find;
    hide Absent;
    if ps == [] {
      NoEntries(before, if tail.Some? then tail.value else [], flag);
    } else {
      var pair, rest := RawPair(ps[0]), ps[1..];
      var after := if |ps| == 1 && tail.None? then [] else [flag] + RawText(rest, tail, flag);
      PairAt(before, ps[0], flag, after);
      assert before + RawText(ps, tail, flag) == before + pair + after;
      if after != [] {
        EntriesOfRaw(before + pair + [flag], rest, tail, flag);
        assert before + pair + after == before + pair + [flag] + RawText(rest, tail, flag);
      }
    }
  }

  lemma RawTextCons(p: Raw, ps: seq<Raw>, tail: Option<seq<Byte>>, flag: Byte)
    requires IsRaw(p, flag) && IsRawText(ps, tail, flag)
    ensures IsRawText([p] + ps, tail, flag)
    ensures ps != [] || tail.Some? ==> RawText([p] + ps, tail, flag) == RawPair(p) + [flag] + RawText(ps, tail, flag)
  {
    assert ([p] + ps)[1..] == ps;
  }

  /** And every text can be cut so. */
  lemma {:induction false} CutUp(s: seq<Byte>, flag: Byte) returns (ps: seq<Raw>, tail: Option<seq<Byte>>)
    requires flag != EQUALS
    ensures IsRawText(ps, tail, flag) && RawText(ps, tail, flag) == s && (ps != [] || tail.Some?)
    decreases |s|
  {
    var key := Find(s, EQUALS, 0);
    if key.None? {
      return [], Some(s);
    }
    var end := Find(s, flag, key.value);
    var p := Raw(s[..key.value], s[key.value + 1..if end.None? then |s| else end.value]);
    assert forall x :: x in p.key ==> exists i :: 0 <= i < key.value && s[i] == x;
    assert IsRaw(p, flag);
    if end.None? {
      ps, tail := [p], None;
      assert s == RawPair(p) == RawText(ps, tail, flag);
    } else {
      var rest;
      rest, tail := CutUp(s[end.value + 1..], flag);
      ps := [p] + rest;
      RawTextCons(p, rest, tail, flag);
      assert s == RawPair(p) + [flag] + s[end.value + 1..];
    }
  }

  // ---------------------------------------------------------------- a list of pairs and its text

  /** A key as it can be sent: no equals sign, no separator, no outer blanks. */
  predicate Sendable(key: seq<Byte>, flag: Byte) {
    && EQUALS !in key && flag !in key
    && (key != [] ==> key[0] !in BLANKS && key[|key|-1] !in BLANKS)
  }

  function Sent(e: Entry, plus: bool): Raw {
    Raw(e.key, Encoded(e.value, plus))
  }

  function Text(es: seq<Entry>, flag: Byte, plus: bool): seq<Byte> {
    RawText(seq(|es|, i requires 0 <= i < |es| => Sent(es[i], plus)), None, flag)
  }

  lemma TrimSendable(key: seq<Byte>, flag: Byte)
    requires Sendable(key, flag)
    ensures Trim(key, BLANKS) == key
  {
    TrimMeaning([], key, [], BLANKS);
    assert [] + key + [] == key;
  }

  lemma SentIs(e: Entry, flag: Byte, plus: bool)
    requires flag in {AMPERSAND, SEMICOLON} && Sendable(e.key, flag)
    ensures IsRaw(Sent(e, plus), flag) && Cooked(Sent(e, plus)) == e
  {
    EncodedAlphabet(e.value, plus);
    TrimSendable(e.key, flag);
    DecodeEncode(e.value, plus, true);
    hide Encoded;
    hide Decoded;
    hide Trim;
  }

  lemma {:induction false} CookedIs(ps: seq<Raw>, es: seq<Entry>)
    requires |ps| == |es| && forall i :: 0 <= i < |es| ==> Cooked(ps[i]) == es[i]
    ensures CookedAll(ps) == es
  {
    hide Cooked;
    if ps != [] {
      CookedIs(ps[1..], es[1..]);
    }
  }

  /** Parsing the text of a list of pairs gives the pairs, from any place in the text. */
  lemma {:induction false} EntriesOfText(before: seq<Byte>, es: seq<Entry>, flag: Byte, plus: bool)
    requires flag in {AMPERSAND, SEMICOLON} && forall i :: 0 <= i < |es| ==> Sendable(es[i].key, flag)
    ensures Entries(before + Text(es, flag, plus), |before|, flag) == es
  {
    var ps := seq(|es|, i requires 0 <= i < |es| => Sent(es[i], plus));
    forall i | 0 <= i < |es|
      ensures IsRaw(ps[i], flag) && Cooked(ps[i]) == es[i]
    {
      SentIs(es[i], flag, plus);
    }
    hide IsRaw;
    hide Cooked;
    hide Sent;
    EntriesOfRaw(before, ps, None, flag);
    CookedIs(ps, es);
  }

  /** For every list of sendable keys with values of any bytes, encoded either way, the parser
      finds for each key the value of its first pair. */
  lemma ParsedText(es: seq<Entry>, flag: Byte, plus: bool, key: seq<Byte>)
    requires flag in {AMPERSAND, SEMICOLON} && forall i :: 0 <= i < |es| ==> Sendable(es[i].key, flag)
    ensures Lookup(InsertedAll(map[], Entries(Text(es, flag, plus), 0, flag)), key) == FirstOf(es, key)
  {
    EntriesOfText([], es, flag, plus);
    assert [] + Text(es, flag, plus) == Text(es, flag, plus);
    LookupFirst(map[], es, key);
  }

  // ---------------------------------------------------------------- requests

  const CONTENT_TYPE: seq<Byte> := Ascii.Bytes("content-type")
  const FORM_TYPE: seq<Byte> := Ascii.Bytes("application/x-www-form-urlencoded")

  predicate StartsAt(s: seq<Byte>, t: seq<Byte>, i: nat) {
    i + |t| <= |s| && s[i..i + |t|] == t
  }

  function ContentType(headers: Dict): seq<Byte> {
    var value := Lookup(headers, CONTENT_TYPE);
    if value.Some? then value.value else []
  }

  /** strcasestr finds the type of a form in the content type, if there is one. */
  predicate IsForm(headers: Dict) {
    var s := Folded(ContentType(headers));
    exists i :: 0 <= i <= |s| && StartsAt(s, FORM_TYPE, i)
  }

  /** The text t stands in s at i, in letters of either case. */
  ghost predicate StandsAt(s: seq<Byte>, t: seq<Byte>, i: nat) {
    i + |t| <= TextLen(s) && forall j :: 0 <= j < |t| ==> SameButCase(s[i + j], t[j])
  }

  lemma FormTypeSmall(j: nat)
    requires j < |FORM_TYPE|
    ensures Lower(FORM_TYPE[j]) == FORM_TYPE[j]
  {
    var text := "application/x-www-form-urlencoded";
    assert forall i :: 0 <= i < |text| ==> !('A' <= text[i] <= 'Z');
    assert Ascii.Is(FORM_TYPE[j], text[j]);
  }

  lemma StandsFolded(s: seq<Byte>, i: nat)
    ensures StartsAt(Folded(s), FORM_TYPE, i) <==> StandsAt(s, FORM_TYPE, i)
  {
    FoldedAt(s);
    if i + |FORM_TYPE| <= TextLen(s) {
      var cut := Folded(s)[i..i + |FORM_TYPE|];
      forall j | 0 <= j < |FORM_TYPE|
        ensures cut[j] == FORM_TYPE[j] <==> SameButCase(s[i + j], FORM_TYPE[j])
      {
        FormTypeSmall(j);
        LowerMeans(s[i + j], FORM_TYPE[j]);
      }
      hide SameButCase;
      hide Lower;
    }
  }

  /** A form is what names its type, in any case, anywhere in its content type. */
  lemma FormMeans(headers: Dict)
    ensures IsForm(headers) <==> exists i: nat :: StandsAt(ContentType(headers), FORM_TYPE, i)
  {
    var value := ContentType(headers);
    FoldedAt(value);
    hide ContentType;
    hide Folded;
    hide SameButCase;
    forall i: nat
      ensures StartsAt(Folded(value), FORM_TYPE, i) <==> StandsAt(value, FORM_TYPE, i)
    {
      StandsFolded(value, i);
    }
    hide StartsAt;
    forall i: nat | StandsAt(value, FORM_TYPE, i)
      ensures 0 <= i <= |Folded(value)| && StartsAt(Folded(value), FORM_TYPE, i)
    {}
  }

  class HttpRequest {
    var query: seq<Byte>
    var body: seq<Byte>
    var headers: Dict
    var params: Dict
    /** Bits 0 and 1 of m_parserParamFlag. */
    var queryDone: bool
    var bodyDone: bool

    constructor (query: seq<Byte>, body: seq<Byte>, headers: Dict)
      ensures this.query == query && this.body == body && this.headers == headers
      ensures params == map[] && !queryDone && !bodyDone
    {
      this.query, this.body, this.headers := query, body, headers;
      params, queryDone, bodyDone := map[], false, false;
    }

    /** The params once the query has been parsed, and the body after it. */
    function WithQuery(): Dict
      reads this
    {
      if queryDone then params else InsertedAll(params, Entries(query, 0, AMPERSAND))
    }

    function WithBody(): Dict
      reads this
    {
      if bodyDone || !IsForm(headers) then WithQuery() else InsertedAll(WithQuery(), Entries(body, 0, AMPERSAND))
    }

    method InitQueryParam()
      modifies this`params, this`queryDone
      ensures queryDone && params == old(WithQuery())
    {
      if queryDone {
        return;
      }
      params := Parse(query, params, AMPERSAND);
      queryDone := true;
    }

    method InitBodyParam()
      modifies this`params, this`bodyDone
      ensures bodyDone
      ensures params == if old(bodyDone) || !IsForm(headers) then old(params)
                        else InsertedAll(old(params), Entries(body, 0, AMPERSAND))
    {
      if bodyDone {
        return;
      }
      if !IsForm(headers) {
        bodyDone := true;
        return;
      }
      params := Parse(body, params, AMPERSAND);
      bodyDone := true;
    }

    /** Parses each part at most once, whatever the number of calls. */
    method GetParam(key: seq<Byte>, def: seq<Byte>) returns (r: seq<Byte>)
      modifies this`params, this`queryDone, this`bodyDone
      ensures queryDone && bodyDone && params == old(WithBody())
      ensures r == match Lookup(old(WithBody()), key) case Some(v) => v case None => def
    {
      InitQueryParam();
      InitBodyParam();
      r := if Folded(key) in params then params[Folded(key)].value else def;
    }

    method SetParam(key: seq<Byte>, value: seq<Byte>)
      modifies this`params
      ensures Folded(key) in params && params[Folded(key)].value == value
      ensures forall k :: k in old(params) && k != Folded(key) ==> k in params && params[k] == old(params)[k]
      ensures params.Keys == old(params).Keys + {Folded(key)}
    {
      var e := if Folded(key) in params then params[Folded(key)].(value := value) else Entry(key, value);
      params := params[Folded(key) := e];
    }
  }

  /** A parameter of the query hides one of the body. */
  lemma QueryBeforeBody(r: HttpRequest, key: seq<Byte>)
    requires !r.queryDone && !r.bodyDone && r.params == map[] && IsForm(r.headers)
    ensures Lookup(r.WithBody(), key) ==
            var inQuery := FirstOf(Entries(r.query, 0, AMPERSAND), key);
            if inQuery.Some? then inQuery else FirstOf(Entries(r.body, 0, AMPERSAND), key)
  {
    LookupFirst(map[], Entries(r.query, 0, AMPERSAND), key);
    LookupFirst(r.WithQuery(), Entries(r.body, 0, AMPERSAND), key);
  }
}
