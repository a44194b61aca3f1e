/** Crane instructions as text: the printer, the splitting of lines into fields, and the reader. */
module CraneText {
  import opened Cargo
  import opened AuditSpec

  // ----- characters -----

  const COMMA := ','
  const CR := '\r'
  const NL := '\n'

  predicate IsSpace(ch: char) {
    ch == ' ' || 9 as char <= ch <= 13 as char
  }

  predicate IsDigit(ch: char) {
    '0' <= ch <= '9'
  }

  function SkipSpaces(s: string): (t: string)
    ensures |t| <= |s| && (t != "" ==> !IsSpace(t[0]))
  {
    if s != "" && IsSpace(s[0]) then SkipSpaces(s[1..]) else s
  }

  /** Index of the first delimiter in s; |s| if there is none. */
  function UpTo(s: string, del: char): (k: nat)
    ensures k <= |s| && del !in s[..k] && (k < |s| ==> s[k] == del)
  {
    if s == "" || s[0] == del then 0 else 1 + UpTo(s[1..], del)
  }

  /** s without the blanks at its end. */
  function TrimRight(s: string): (t: string)
    ensures t <= s
  {
    if s != "" && s[|s| - 1] == ' ' then TrimRight(s[..|s| - 1]) else s
  }

  predicate OnlyWhiteSpaces(s: string) {
    forall k :: 0 <= k < |s| ==> s[k] == ' ' || s[k] == CR
  }

  // ----- splitting -----

  /** The fields of a line: parts between delimiters, without blanks around them; empty parts are dropped. */
  function Split(line: string, del: char): (fields: seq<string>)
    decreases |line|
  {
    var s := SkipSpaces(line);
    if s == "" then []
    else
      var k := UpTo(s, del);
      var item := s[..k];
      var rest := if k < |s| then s[k + 1..] else "";
      (if item == "" || OnlyWhiteSpaces(item) then [] else [TrimRight(item)]) + Split(rest, del)
  }

  /** Takes the next part off the stream: no field if the part is empty or blank, else one. */
  method NextItem(stream: string, del: char) returns (kept: seq<string>, stream': string)
    requires stream != "" && SkipSpaces(stream) == stream
    ensures Split(stream, del) == kept + Split(stream', del)
    ensures SkipSpaces(stream') == stream' && |stream'| < |stream|
  {
    var k := UpTo(stream, del);
    var item := stream[..k];
    var rest := if k < |stream| then stream[k + 1..] else "";
    ItemTaken(stream, del, k, rest);
    stream' := SkipSpaces(rest);
    kept := [];
    if !(item == "" || OnlyWhiteSpaces(item)) {
      kept := [TrimRight(item)];
    }
  }

  lemma ItemTaken(stream: string, del: char, k: nat, rest: string)
    requires stream != "" && SkipSpaces(stream) == stream && k == UpTo(stream, del)
    requires rest == if k < |stream| then stream[k + 1..] else ""
    ensures Split(stream, del) == KeptOf(stream[..k]) + Split(SkipSpaces(rest), del)
    ensures SkipSpaces(SkipSpaces(rest)) == SkipSpaces(rest) && |SkipSpaces(rest)| < |stream|
  {
    SplitNext(stream, del);
    SkipTwice(rest, del);
    SkipIsNotLonger(rest);
  }

  /** The splitting loop over the line's stream. */
  method SplitLine(line: string, del: char) returns (entries: seq<string>)
    ensures entries == Split(line, del)
  {
    entries := [];
    var stream := SkipSpaces(line);
    SkipTwice(line, del);
    while stream != ""
      invariant entries + Split(stream, del) == Split(line, del)
      invariant SkipSpaces(stream) == stream
      decreases |stream|
    {
      var kept;
      kept, stream := NextItem(stream, del);
      assert entries + (kept + Split(stream, del)) == (entries + kept) + Split(stream, del);
      entries := entries + kept;
    }
  }

  function KeptOf(item: string): seq<string> {
    if item == "" || OnlyWhiteSpaces(item) then [] else [TrimRight(item)]
  }

  lemma SplitNext(s: string, del: char)
    requires s != "" && SkipSpaces(s) == s
    ensures var k := UpTo(s, del);
            Split(s, del) == KeptOf(s[..k]) + Split(if k < |s| then s[k + 1..] else "", del)
  {
  }

  lemma {:induction false} SkipAgain(s: string)
    ensures SkipSpaces(SkipSpaces(s)) == SkipSpaces(s)
  {
  }

  lemma {:induction false} SkipIsNotLonger(s: string)
    ensures |SkipSpaces(s)| <= |s|
  {
    if s != "" {
      SkipIsNotLonger(s[1..]);
    }
  }

  lemma SkipTwice(s: string, del: char)
    ensures Split(SkipSpaces(s), del) == Split(s, del) && SkipSpaces(SkipSpaces(s)) == SkipSpaces(s)
  {
    SkipAgain(s);
  }

  /** The fields that splitting can produce: not empty, no delimiter, no white space in front, no blank behind. */
  predicate CleanField(f: string, del: char) {
    f != "" && del !in f && !IsSpace(f[0]) && f[|f| - 1] != ' '
  }

  lemma {:induction false} TrimStops(s: string)
    requires s != "" && !IsSpace(s[0])
    ensures TrimRight(s) != "" && TrimRight(s)[0] == s[0] && TrimRight(s)[|TrimRight(s)| - 1] != ' '
  {
    if s[|s| - 1] == ' ' {
      TrimStops(s[..|s| - 1]);
    }
  }

  /** Splitting produces clean fields only. */
  lemma {:induction false} SplitIsClean(line: string, del: char)
    ensures forall f :: f in Split(line, del) ==> CleanField(f, del)
    decreases |line|
  {
    var s := SkipSpaces(line);
    if s != "" {
      var k := UpTo(s, del);
      var item := s[..k];
      var rest := if k < |s| then s[k + 1..] else "";
      SplitIsClean(rest, del);
      if item != "" {
        assert item[0] == s[0];
        TrimStops(item);
        assert TrimRight(item) <= item;
      }
    }
  }

  // ----- splitting, part by part -----

  /** Which characters are skipped in front of a part. */
  lemma {:induction false} SkipExactly(s: string) returns (k: nat)
    ensures k <= |s| && SkipSpaces(s) == s[k..]
    ensures forall j :: 0 <= j < k ==> s[j] == ' ' || 9 <= s[j] as int <= 13
    ensures k < |s| ==> s[k] != ' ' && !(9 <= s[k] as int <= 13)
  {
    if s != "" && IsSpace(s[0]) {
      k := SkipExactly(s[1..]);
      k := k + 1;
      assert forall j :: 0 < j < |s| ==> s[j] == s[1..][j - 1];
    } else {
      k := 0;
    }
  }

  /** Which characters are cut off behind it. */
  lemma {:induction false} TrimExactly(s: string) returns (k: nat)
    ensures k <= |s| && TrimRight(s) == s[..k]
    ensures forall j :: k <= j < |s| ==> s[j] == ' '
    ensures k > 0 ==> s[k - 1] != ' '
    decreases |s|
  {
    if s != "" && s[|s| - 1] == ' ' {
      k := TrimExactly(s[..|s| - 1]);
    } else {
      k := |s|;
    }
  }

  /** A line without a delimiter has one field at most: the line without the blanks around it. */
  lemma SplitPart(part: string, del: char)
    requires del !in part
    ensures var item := SkipSpaces(part);
            Split(part, del) == if item == "" then [] else [TrimRight(item)]
  {
    var item := SkipSpaces(part);
    SkipTwice(part, del);
    var k := SkipExactly(part);
    if item != "" {
      assert UpTo(item, del) == |item|;
      assert item[..|item|] == item && !OnlyWhiteSpaces(item);
      SplitNext(item, del);
      assert Split("", del) == [];
    }
  }

  lemma {:induction false} SkipBoth(a: string, b: string)
    requires b != "" && !IsSpace(b[0])
    ensures SkipSpaces(a + b) == SkipSpaces(a) + b
  {
    if a == "" {
      assert a + b == b;
    } else {
      assert (a + b)[1..] == a[1..] + b;
      if IsSpace(a[0]) {
        SkipBoth(a[1..], b);
      }
    }
  }

  lemma {:induction false} UpToBoth(a: string, del: char, b: string)
    ensures UpTo(a + [del] + b, del) == UpTo(a, del)
  {
    var s := a + [del] + b;
    if a != "" && a[0] != del {
      UpToBoth(a[1..], del, b);
      assert s[1..] == a[1..] + [del] + b;
    }
  }

  /** The fields of two parts with a delimiter between them are those of the one and those of the other. */
  lemma {:induction false} SplitBoth(a: string, del: char, b: string)
    requires !IsSpace(del)
    ensures Split(a + [del] + b, del) == Split(a, del) + Split(b, del)
    decreases |a|, 1
  {
    SkipTwice(a, del);
    SkipIsNotLonger(a);
    Skipped(a, del, b);
    SplitSkipped(SkipSpaces(a), del, b);
  }

  lemma {:induction false} SplitSkipped(s: string, del: char, b: string)
    requires !IsSpace(del) && SkipSpaces(s) == s
    ensures Split(s + [del] + b, del) == Split(s, del) + Split(b, del)
    decreases |s|, 0
  {
    var k := UpTo(s, del);
    if k == |s| {
      BothLast(s, del, b);
    } else {
      BothMore(s, del, b, k);
      SplitBoth(s[k + 1..], del, b);
      FieldsAdd(KeptOf(s[..k]), Split(s[k + 1..], del), Split(b, del));
    }
  }

  lemma FieldsAdd(a: seq<string>, b: seq<string>, c: seq<string>)
    ensures a + (b + c) == (a + b) + c
  {
  }

  lemma Skipped(a: string, del: char, b: string)
    requires !IsSpace(del)
    ensures Split(a + [del] + b, del) == Split(SkipSpaces(a) + [del] + b, del)
  {
    var s, tail := SkipSpaces(a), [del] + b;
    assert a + [del] + b == a + tail && s + [del] + b == s + tail;
    SkipBoth(a, tail);
    SkipTwice(a + tail, del);
  }

  lemma BothLast(s: string, del: char, b: string)
    requires !IsSpace(del) && SkipSpaces(s) == s && UpTo(s, del) == |s|
    ensures Split(s + [del] + b, del) == Split(s, del) + Split(b, del)
  {
    var all := s + [del] + b;
    assert all == s + ([del] + b);
    SkipBoth(s, [del] + b);
    UpToBoth(s, del, b);
    SplitNext(all, del);
    assert all[..|s|] == s && all[|s| + 1..] == b;
    WholePart(s, del);
  }

  lemma BothMore(s: string, del: char, b: string, k: nat)
    requires !IsSpace(del) && SkipSpaces(s) == s && k == UpTo(s, del) < |s|
    ensures Split(s + [del] + b, del) == KeptOf(s[..k]) + Split(s[k + 1..] + [del] + b, del)
    ensures Split(s, del) == KeptOf(s[..k]) + Split(s[k + 1..], del)
  {
    var all := s + [del] + b;
    assert all == s + ([del] + b);
    SkipBoth(s, [del] + b);
    UpToBoth(s, del, b);
    SplitNext(all, del);
    SplitNext(s, del);
    assert all[..k] == s[..k] && all[k + 1..] == s[k + 1..] + [del] + b;
  }

  lemma WholePart(s: string, del: char)
    requires SkipSpaces(s) == s && UpTo(s, del) == |s|
    ensures Split(s, del) == KeptOf(s)
  {
    if s != "" {
      SplitNext(s, del);
      assert s[..|s|] == s && Split("", del) == [] && KeptOf(s) + [] == KeptOf(s);
    }
  }

  function Join(fields: seq<string>): string
    requires fields != []
  {
    if |fields| == 1 then fields[0] else fields[0] + ", " + Join(fields[1..])
  }

  lemma {:induction false} UpToClean(f: string, del: char, tail: string)
    requires del !in f
    ensures UpTo(f + [del] + tail, del) == |f| && UpTo(f, del) == |f|
  {
    if f != "" {
      UpToClean(f[1..], del, tail);
      assert (f + [del] + tail)[1..] == f[1..] + [del] + tail;
    }
  }

  lemma NotOnlyWhite(f: string, del: char)
    requires CleanField(f, del)
    ensures !OnlyWhiteSpaces(f) && TrimRight(f) == f && SkipSpaces(f) == f
  {
    assert f[0] != ' ' && f[0] != CR;
  }

  lemma SplitOne(f: string)
    requires CleanField(f, COMMA)
    ensures Split(f, COMMA) == [f]
  {
    NotOnlyWhite(f, COMMA);
    UpToClean(f, COMMA, "");
    assert f[..|f|] == f;
    SplitNext(f, COMMA);
    assert Split("", COMMA) == [];
  }

  lemma SplitFirst(f: string, rest: string)
    requires CleanField(f, COMMA)
    ensures Split(f + ", " + rest, COMMA) == [f] + Split(rest, COMMA)
  {
    var tail := " " + rest;
    var s := f + ", " + rest;
    assert s == f + [COMMA] + tail;
    assert s[0] == f[0];
    UpToClean(f, COMMA, tail);
    assert s[..|f|] == f && s[|f| + 1..] == tail;
    NotOnlyWhite(f, COMMA);
    SplitNext(s, COMMA);
    assert tail[1..] == rest;
    SkipTwice(tail, COMMA);
    SkipTwice(rest, COMMA);
  }

  /** Splitting undoes joining, for every list of fields that splitting can produce. */
  lemma {:induction false} SplitJoin(fields: seq<string>)
    requires fields != [] && forall f :: f in fields ==> CleanField(f, COMMA)
    ensures Split(Join(fields), COMMA) == fields
    decreases |fields|
  {
    if |fields| == 1 {
      SplitOne(fields[0]);
      assert fields == [fields[0]];
    } else {
      SplitFirst(fields[0], Join(fields[1..]));
      SplitJoin(fields[1..]);
      assert fields == [fields[0]] + fields[1..];
    }
  }

  // ----- numbers -----

  function DigitChar(d: nat): char
    requires d < 10
  {
    ('0' as int + d) as char
  }

  function Digits(n: nat): (s: string)
    ensures s != "" && forall k :: 0 <= k < |s| ==> IsDigit(s[k])
  {
    if n < 10 then [DigitChar(n)] else Digits(n / 10) + [DigitChar(n % 10)]
  }

  function ToString(n: int): string {
    if n < 0 then "-" + Digits(-n) else Digits(n)
  }

  function DigitValue(ch: char): nat
    requires IsDigit(ch)
  {
    ch as int - '0' as int
  }

  function ValueOf(s: string): nat
    requires forall k :: 0 <= k < |s| ==> IsDigit(s[k])
  {
    if s == "" then 0 else 10 * ValueOf(s[..|s| - 1]) + DigitValue(s[|s| - 1])
  }

  /** The longest prefix of digits. */
  function DigitPrefix(s: string): (t: string)
    ensures t <= s && forall k :: 0 <= k < |t| ==> IsDigit(t[k])
    ensures (forall k :: 0 <= k < |s| ==> IsDigit(s[k])) ==> t == s
  {
    if s == "" || !IsDigit(s[0]) then "" else [s[0]] + DigitPrefix(s[1..])
  }

  /** The integer at the start of a string: white space, a sign, digits. None is the failed conversion. */
  function Stoi(s: string): Option<int> {
    var t := SkipSpaces(s);
    var negative := t != "" && t[0] == '-';
    var d := DigitPrefix(if t != "" && (t[0] == '-' || t[0] == '+') then t[1..] else t);
    if d == "" then None else Some(if negative then -(ValueOf(d) as int) else ValueOf(d))
  }

  lemma {:induction false} ValueOfDigits(n: nat)
    ensures ValueOf(Digits(n)) == n
  {
    if n >= 10 {
      ValueOfDigits(n / 10);
      var s := Digits(n);
      assert s[..|s| - 1] == Digits(n / 10);
    } else {
      assert Digits(n)[..0] == "";
    }
  }

  lemma StoiOfDigits(n: nat)
    ensures Stoi(Digits(n)) == Some(n) && Stoi("-" + Digits(n)) == Some(-(n as int))
  {
    ValueOfDigits(n);
    PlainStoi(Digits(n), n);
    NegatedStoi(Digits(n), n);
  }

  lemma StoiUndoesToString(n: int)
    ensures Stoi(ToString(n)) == Some(n)
  {
    StoiOfDigits(if n < 0 then -n else n);
  }

  /** What the digits of a number mean: one digit more counts ten times what stands before it, which
      is 0 if nothing does. A minus sign negates. */
  lemma StoiByDigits(s: string, ch: char, more: string) returns (v: nat, v': nat)
    requires AllDigits(s) && IsDigit(ch) && more == s + [ch]
    ensures if s == "" then v == 0 else Stoi(s) == Some(v)
    ensures v' == 10 * v + (ch as int - 48)
    ensures Stoi(more) == Some(v') && Stoi("-" + more) == Some(-(v' as int))
  {
    v, v' := ValueOneMore(s, ch, more);
    PlainStoi(more, v');
    NegatedStoi(more, v');
    if s != "" {
      PlainStoi(s, v);
    }
  }

  predicate AllDigits(s: string) {
    forall k :: 0 <= k < |s| ==> '0' <= s[k] <= '9'
  }

  lemma ValueOneMore(s: string, ch: char, more: string) returns (v: nat, v': nat)
    requires AllDigits(s) && IsDigit(ch) && more == s + [ch]
    ensures AllDigits(more) && v == ValueOf(s) && v' == ValueOf(more)
    ensures v' == 10 * v + (ch as int - 48) && (s == "" ==> v == 0)
  {
    assert more[..|more| - 1] == s;
    v, v' := ValueOf(s), ValueOf(more);
  }

  lemma PlainStoi(s: string, v: nat)
    requires s != "" && AllDigits(s) && v == ValueOf(s)
    ensures Stoi(s) == Some(v)
  {
    DigitsInFront(s);
  }

  lemma NegatedStoi(s: string, v: nat)
    requires s != "" && AllDigits(s) && v == ValueOf(s)
    ensures Stoi("-" + s) == Some(-(v as int))
  {
    DigitsInFront(s);
    var m := "-" + s;
    assert m[0] == '-' && m[1..] == s && SkipSpaces(m) == m;
  }

  lemma DigitsInFront(s: string)
    requires s != "" && AllDigits(s)
    ensures SkipSpaces(s) == s && DigitPrefix(s) == s && s[0] != '-' && s[0] != '+'
  {
    assert IsDigit(s[0]);
  }

  lemma NumberIsClean(n: int)
    ensures CleanField(ToString(n), COMMA)
  {
    var s := ToString(n);
    assert forall k :: 0 <= k < |s| ==> IsDigit(s[k]) || s[k] == '-';
  }

  // ----- the printer -----

  function TypeChar(i: Instruction): char {
    match TypeOf(i)
    case LOAD => 'L'
    case UNLOAD => 'U'
    case MOVE => 'M'
    case REJECT => 'R'
    case UNSET => 0 as char
  }

  function StringRep(i: Instruction): string {
    if i.Reject? then [TypeChar(i)] + ", " + i.id
    else if i.Move? then
      [TypeChar(i)] + ", " + i.id + ", " + ToString(i.floor)
      + ", " + ToString(i.row) + ", " + ToString(i.col) + ", " + ToString(i.destFloor)
      + ", " + ToString(i.destRow) + ", " + ToString(i.destCol)
    else [TypeChar(i)] + ", " + i.id + ", " + ToString(i.floor) + ", " + ToString(i.row) + ", " + ToString(i.col)
  }

  function StringsOf(ns: seq<int>): (f: seq<string>)
    ensures |f| == |ns| && forall k :: 0 <= k < |ns| ==> f[k] == ToString(ns[k])
  {
    seq(|ns|, k requires 0 <= k < |ns| => ToString(ns[k]))
  }

  /** The fields that the printer writes. */
  function FieldsOf(i: Instruction): seq<string> {
    [[TypeChar(i)], i.id]
    + (if i.Reject? then [] else StringsOf([i.floor, i.row, i.col]))
    + (if i.Move? then StringsOf([i.destFloor, i.destRow, i.destCol]) else [])
  }

  /** Joining from the left, as a chain of string additions does. */
  function JoinLeft(acc: string, rest: seq<string>): string
    decreases |rest|
  {
    if rest == [] then acc else JoinLeft(acc + ", " + rest[0], rest[1..])
  }

  lemma {:induction false} JoinLeftIsJoin(acc: string, rest: seq<string>)
    ensures JoinLeft(acc, rest) == Join([acc] + rest)
    decreases |rest|
  {
    if rest == [] {
      assert [acc] + rest == [acc];
    } else {
      var x := rest[0];
      JoinLeftIsJoin(acc + ", " + x, rest[1..]);
      JoinStep(acc, rest);
      if rest[1..] == [] {
        assert rest == [x];
        assert [acc + ", " + x] + rest[1..] == [acc + ", " + x];
      } else {
        JoinStep(acc + ", " + x, rest[1..]);
        assert rest == [x] + rest[1..];
        JoinStep(x, rest[1..]);
        assert acc + ", " + x + ", " + Join(rest[1..]) == acc + ", " + (x + ", " + Join(rest[1..]));
      }
    }
  }

  lemma JoinStep(a: string, rest: seq<string>)
    requires rest != []
    ensures Join([a] + rest) == a + ", " + Join(rest)
  {
    assert ([a] + rest)[1..] == rest;
  }

  lemma JoinLeftStep(acc: string, x: string, rest: seq<string>)
    ensures JoinLeft(acc, [x] + rest) == JoinLeft(acc + ", " + x, rest)
  {
    assert ([x] + rest)[1..] == rest;
  }

  lemma JoinFive(a: string, b: string, c: string, d: string, e: string)
    ensures Join([a, b, c, d, e]) == a + ", " + b + ", " + c + ", " + d + ", " + e
  {
    JoinLeftIsJoin(a, [b, c, d, e]);
    assert [a] + [b, c, d, e] == [a, b, c, d, e];
    JoinLeftStep(a, b, [c, d, e]);
    assert [b] + [c, d, e] == [b, c, d, e];
    JoinLeftStep(a + ", " + b, c, [d, e]);
    assert [c] + [d, e] == [c, d, e];
    JoinLeftStep(a + ", " + b + ", " + c, d, [e]);
    assert [d] + [e] == [d, e];
    JoinLeftStep(a + ", " + b + ", " + c + ", " + d, e, []);
    assert [e] + [] == [e];
  }

  lemma JoinEight(a: string, b: string, c: string, d: string, e: string, f: string, g: string, h: string)
    ensures Join([a, b, c, d, e, f, g, h]) ==
            a + ", " + b + ", " + c + ", " + d + ", " + e + ", " + f + ", " + g + ", " + h
  {
    JoinLeftIsJoin(a, [b, c, d, e, f, g, h]);
    assert [a] + [b, c, d, e, f, g, h] == [a, b, c, d, e, f, g, h];
    JoinLeftStep(a, b, [c, d, e, f, g, h]);
    assert [b] + [c, d, e, f, g, h] == [b, c, d, e, f, g, h];
    JoinLeftStep(a + ", " + b, c, [d, e, f, g, h]);
    assert [c] + [d, e, f, g, h] == [c, d, e, f, g, h];
    JoinLeftStep(a + ", " + b + ", " + c, d, [e, f, g, h]);
    assert [d] + [e, f, g, h] == [d, e, f, g, h];
    var acc := a + ", " + b + ", " + c + ", " + d + ", " + e;
    JoinLeftStep(a + ", " + b + ", " + c + ", " + d, e, [f, g, h]);
    assert [e] + [f, g, h] == [e, f, g, h];
    JoinLeftStep(acc, f, [g, h]);
    assert [f] + [g, h] == [f, g, h];
    JoinLeftStep(acc + ", " + f, g, [h]);
    assert [g] + [h] == [g, h];
    JoinLeftStep(acc + ", " + f + ", " + g, h, []);
    assert [h] + [] == [h];
  }

  /** The fields of a printed line, in their order: kind, id, then height, row and column of the
      place, and of a move those of its destination. */
  function PrintedFields(i: Instruction): seq<string> {
    match i
    case Load(r, c, f, id) => ["L", id, ToString(f), ToString(r), ToString(c)]
    case Unload(r, c, f, id) => ["U", id, ToString(f), ToString(r), ToString(c)]
    case Move(r, c, f, dr, dc, df, id) =>
      ["M", id, ToString(f), ToString(r), ToString(c), ToString(df), ToString(dr), ToString(dc)]
    case Reject(_, _, _, id) => ["R", id]
    case Blank(r, c, f, id) => [[0 as char], id, ToString(f), ToString(r), ToString(c)]
  }

  lemma PrintIsJoin(i: Instruction)
    ensures FieldsOf(i) == PrintedFields(i) && StringRep(i) == Join(PrintedFields(i))
  {
    var f := FieldsOf(i);
    PrintedInOrder(i);
    if i.Reject? {
      JoinStep(f[0], [f[1]]);
      assert [f[0]] + [f[1]] == f;
    } else if i.Move? {
      JoinEight(f[0], f[1], f[2], f[3], f[4], f[5], f[6], f[7]);
      assert f == [f[0], f[1], f[2], f[3], f[4], f[5], f[6], f[7]];
    } else {
      JoinFive(f[0], f[1], f[2], f[3], f[4]);
      assert f == [f[0], f[1], f[2], f[3], f[4]];
    }
  }

  lemma PrintedInOrder(i: Instruction)
    ensures FieldsOf(i) == PrintedFields(i)
  {
    assert StringsOf([i.floor, i.row, i.col]) == [ToString(i.floor), ToString(i.row), ToString(i.col)];
    if i.Move? {
      assert StringsOf([i.destFloor, i.destRow, i.destCol]) ==
             [ToString(i.destFloor), ToString(i.destRow), ToString(i.destCol)];
    }
  }

  // ----- the reader -----

  /** What one line makes of the instruction: the instruction, and whether the line was complete. */
  datatype Line = Line(instruction: Instruction, complete: bool)

  /** An instruction whose fields were set one by one; fields that were not set are zero. */
  function Make(kind: string, floor: int, row: int, col: int, destFloor: int, destRow: int, destCol: int,
                id: string): Instruction {
    if kind == "L" then Load(row, col, floor, id)
    else if kind == "U" then Unload(row, col, floor, id)
    else if kind == "R" then Reject(row, col, floor, id)
    else if kind == "M" then Move(row, col, floor, destRow, destCol, destFloor, id)
    else Blank(row, col, floor, id)
  }

  /** The integers of some fields. None is the exception of a failed conversion. */
  function Numbers(fields: seq<string>): (ns: Option<seq<int>>)
    ensures ns.Some? ==> |ns.value| == |fields|
  {
    if fields == [] then Some([])
    else
      var n := Stoi(fields[0]);
      var rest := Numbers(fields[1..]);
      if n.None? || rest.None? then None else Some([n.value] + rest.value)
  }

  /** One line of fields. None is the exception of a failed conversion. */
  function ReadLine(fields: seq<string>): Option<Line> {
    if |fields| < 2 then Some(Line(Blank(0, 0, 0, ""), false))
    else if fields[0] == "R" then Some(Line(Make("R", 0, 0, 0, 0, 0, 0, fields[1]), true))
    else if |fields| < 5 then Some(Line(Make(fields[0], 0, 0, 0, 0, 0, 0, fields[1]), false))
    else
      var at := Numbers(fields[2..5]);
      var dest := if |fields| == 8 && fields[0] == "M" then Numbers(fields[5..8]) else Some([0, 0, 0]);
      if at.None? || dest.None? then None
      else Some(Line(Make(fields[0], at.value[0], at.value[1], at.value[2],
                          dest.value[0], dest.value[1], dest.value[2], fields[1]), true))
  }

  function After(read: seq<Instruction>, rest: Option<seq<Instruction>>): Option<seq<Instruction>> {
    match rest
    case None => None
    case Some(more) => Some(read + more)
  }

  /** The reading loop from some line on. Once a complete line was read the flag stays set, and
      later lines are kept whether they are complete or not. */
  function ReadFrom(data: seq<seq<string>>, flag: bool): Option<seq<Instruction>> {
    if data == [] then Some([])
    else
      match ReadLine(data[0])
      case None => None
      case Some(l) =>
        After(if flag || l.complete then [l.instruction] else [], ReadFrom(data[1..], flag || l.complete))
  }

  lemma AfterNothing(rest: Option<seq<Instruction>>)
    ensures After([], rest) == rest
  {
    assert rest.Some? ==> [] + rest.value == rest.value;
  }

  lemma AfterMore(read: seq<Instruction>, one: seq<Instruction>, rest: Option<seq<Instruction>>)
    ensures After(read, After(one, rest)) == After(read + one, rest)
  {
    assert rest.Some? ==> read + (one + rest.value) == (read + one) + rest.value;
  }

  lemma ReadFromNext(data: seq<seq<string>>, flag: bool, read: seq<Instruction>)
    requires data != [] && ReadLine(data[0]).Some?
    ensures var l := ReadLine(data[0]).value;
            var flag' := flag || l.complete;
            After(read, ReadFrom(data, flag)) ==
            After(read + (if flag' then [l.instruction] else []), ReadFrom(data[1..], flag'))
  {
    var l := ReadLine(data[0]).value;
    var flag' := flag || l.complete;
    var one := if flag' then [l.instruction] else [];
    AfterMore(read, one, ReadFrom(data[1..], flag'));
    assert ReadFrom(data, flag) == After(one, ReadFrom(data[1..], flag'));
  }

  method ReadCraneInstructions(data: seq<seq<string>>) returns (instructions: Option<seq<Instruction>>)
    ensures instructions == ReadFrom(data, false)
  {
    var read: seq<Instruction> := [];
    var loadInstruction := false;
    assert data[0..] == data;
    AfterNothing(ReadFrom(data, false));
    for i := 0 to |data|
      invariant After(read, ReadFrom(data[i..], loadInstruction)) == ReadFrom(data, false)
    {
      assert data[i..][1..] == data[i + 1..];
      var line := ReadLine(data[i]);
      if line.None? {
        return None;
      }
      ReadFromNext(data[i..], loadInstruction, read);
      if line.value.complete {
        loadInstruction := true;
      }
      if loadInstruction {
        read := read + [line.value.instruction];
      } else {
        assert read + [] == read;
      }
    }
    assert data[|data|..] == [] && read + [] == read;
    instructions := Some(read);
  }

  // ----- the file -----

  function WithoutCR(line: string): string {
    if line == "" then "" else (if line[0] == CR then "" else [line[0]]) + WithoutCR(line[1..])
  }

  /** The text of a file to which some lines were appended. */
  function TextOf(lines: seq<string>): string {
    if lines == [] then "" else lines[0] + [NL] + TextOf(lines[1..])
  }

  /** The lines of a text, as a line reader takes them. */
  function LinesOf(text: string): seq<string>
    decreases |text|
  {
    if text == "" then []
    else
      var k := UpTo(text, NL);
      [text[..k]] + LinesOf(if k < |text| then text[k + 1..] else "")
  }

  lemma LinesStep(line: string, tail: string)
    requires NL !in line
    ensures LinesOf(line + [NL] + tail) == [line] + LinesOf(tail)
  {
    var text := line + [NL] + tail;
    UpToClean(line, NL, tail);
    assert text[..|line|] == line && text[|line| + 1..] == tail;
  }

  /** The lines of a text: what stands before a line feed and the lines of what stands after it; a
      text without one is a line unless it is empty. */
  lemma LinesExactly(line: string, tail: string)
    requires NL !in line
    ensures LinesOf(line + [NL] + tail) == [line] + LinesOf(tail)
    ensures LinesOf(line) == if line == "" then [] else [line]
  {
    LinesStep(line, tail);
    if line != "" {
      assert UpTo(line, NL) == |line| && line[..|line|] == line;
      assert LinesOf("") == [];
    }
  }

  lemma {:induction false} LinesUndoText(lines: seq<string>)
    requires forall l :: l in lines ==> NL !in l
    ensures LinesOf(TextOf(lines)) == lines
    decreases |lines|
  {
    if lines != [] {
      LinesStep(lines[0], TextOf(lines[1..]));
      LinesUndoText(lines[1..]);
      assert lines == [lines[0]] + lines[1..];
    }
  }

  function KeptLine(raw: string): seq<seq<string>> {
    var line := WithoutCR(raw);
    if line == "" || line[0] == '#' || Split(line, COMMA) == [] then [] else [Split(line, COMMA)]
  }

  /** A line has no field exactly when it holds nothing but white space and delimiters. */
  lemma {:induction false} NoFieldExactly(line: string, del: char)
    requires !IsSpace(del)
    ensures Split(line, del) == [] <==> forall k :: 0 <= k < |line| ==> IsSpace(line[k]) || line[k] == del
    decreases |line|
  {
    SkippedBlank(line, del);
    var s := SkipSpaces(line);
    if s != "" {
      SkipAgain(line);
      SplitNext(s, del);
      SkipTwice(line, del);
      var k := UpTo(s, del);
      if k == 0 {
        NoFieldExactly(s[1..], del);
        assert s == [del] + s[1..];
      } else {
        assert s[..k][0] == s[0] && s[0] != del;
        assert !OnlyWhiteSpaces(s[..k]);
      }
    }
  }

  lemma {:induction false} SkippedBlank(line: string, del: char)
    ensures |SkipSpaces(line)| <= |line|
    ensures (forall k :: 0 <= k < |line| ==> IsSpace(line[k]) || line[k] == del) <==>
            (forall k :: 0 <= k < |SkipSpaces(line)| ==> IsSpace(SkipSpaces(line)[k]) || SkipSpaces(line)[k] == del)
  {
    if line != "" && IsSpace(line[0]) {
      SkippedBlank(line[1..], del);
      assert line == [line[0]] + line[1..];
    }
  }

  /** The number of carriage returns in front, and what follows them. */
  lemma {:induction false} FirstOther(raw: string) returns (k: nat)
    ensures k <= |raw| && (forall j :: 0 <= j < k ==> raw[j] == '\r') && (k < |raw| ==> raw[k] != '\r')
    ensures k == |raw| <==> WithoutCR(raw) == ""
    ensures k < |raw| ==> WithoutCR(raw)[0] == raw[k]
  {
    if raw == "" || raw[0] != '\r' {
      k := 0;
    } else {
      assert WithoutCR(raw) == WithoutCR(raw[1..]);
      k := FirstOther(raw[1..]);
      k := k + 1;
      assert forall j :: 0 < j < |raw| ==> raw[j] == raw[1..][j - 1];
    }
  }

  lemma BeginsWith(raw: string, ch: char)
    requires ch != '\r'
    ensures WithoutCR(raw) == "" <==> forall k :: 0 <= k < |raw| ==> raw[k] == '\r'
    ensures WithoutCR(raw) != "" && WithoutCR(raw)[0] == ch <==>
            exists k :: 0 <= k < |raw| && raw[k] == ch && forall j :: 0 <= j < k ==> raw[j] == '\r'
  {
    var k := FirstOther(raw);
  }

  /** Which lines are dropped: those with nothing but carriage returns, those that begin with '#' but
      for carriage returns, and those without a field. Any other gives its fields. */
  lemma KeptExactly(raw: string)
    ensures KeptLine(raw) == [] || KeptLine(raw) == [Split(WithoutCR(raw), ',')]
    ensures KeptLine(raw) == [] <==>
            || (forall k :: 0 <= k < |raw| ==> raw[k] == '\r')
            || (exists k :: 0 <= k < |raw| && raw[k] == '#' && forall j :: 0 <= j < k ==> raw[j] == '\r')
            || (forall k :: 0 <= k < |WithoutCR(raw)| ==> IsSpace(WithoutCR(raw)[k]) || WithoutCR(raw)[k] == ',')
  {
    BeginsWith(raw, '#');
    NoFieldExactly(WithoutCR(raw), ',');
  }

  /** The lines of a file as lists of fields; empty lines, comments and lines without a field are dropped. */
  function ParseLines(lines: seq<string>): seq<seq<string>> {
    if lines == [] then [] else KeptLine(lines[0]) + ParseLines(lines[1..])
  }

  /** One line for each instruction. */
  function PrintAll(list: seq<Instruction>): seq<string> {
    if list == [] then [] else [StringRep(list[0])] + PrintAll(list[1..])
  }

  lemma RemoveNext(line: string, raw: string, k: nat)
    requires k < |raw|
    ensures line + WithoutCR(raw[k..]) == (if raw[k] == CR then line else line + [raw[k]]) + WithoutCR(raw[k + 1..])
  {
    var rest := WithoutCR(raw[k + 1..]);
    assert raw[k..][1..] == raw[k + 1..];
    assert WithoutCR(raw[k..]) == (if raw[k] == CR then "" else [raw[k]]) + rest;
    assert "" + rest == rest;
    assert line + ([raw[k]] + rest) == (line + [raw[k]]) + rest;
  }

  method RemoveCR(raw: string) returns (line: string)
    ensures line == WithoutCR(raw)
  {
    line := "";
    for k := 0 to |raw|
      invariant line + WithoutCR(raw[k..]) == WithoutCR(raw)
    {
      RemoveNext(line, raw, k);
      if raw[k] != CR {
        line := line + [raw[k]];
      }
    }
    assert raw[|raw|..] == "" && line + "" == line;
  }

  /** One line of a file: no list of fields if the line is dropped, else one. */
  method ParseLine(raw: string) returns (kept: seq<seq<string>>)
    ensures kept == KeptLine(raw)
  {
    var line := RemoveCR(raw);
    if line == "" || line[0] == '#' {
      return [];
    }
    var fields := SplitLine(line, COMMA);
    if fields == [] {
      return [];
    }
    return [fields];
  }

  lemma ParseNext(lines: seq<string>, k: nat, read: seq<seq<string>>)
    requires k < |lines|
    ensures read + ParseLines(lines[k..]) == (read + KeptLine(lines[k])) + ParseLines(lines[k + 1..])
  {
    assert lines[k..][1..] == lines[k + 1..];
    var kept := KeptLine(lines[k]);
    var more := ParseLines(lines[k + 1..]);
    assert read + (kept + more) == (read + kept) + more;
  }

  /** The loop over the lines of a file. */
  method ParseFileToVector(lines: seq<string>) returns (dataList: seq<seq<string>>)
    ensures dataList == ParseLines(lines)
  {
    dataList := [];
    assert lines[0..] == lines;
    for k := 0 to |lines|
      invariant dataList + ParseLines(lines[k..]) == ParseLines(lines)
    {
      ParseNext(lines, k, dataList);
      var kept := ParseLine(lines[k]);
      dataList := dataList + kept;
    }
    assert lines[|lines|..] == [] && dataList + [] == dataList;
  }

  lemma WriteNext(instructions: seq<Instruction>, k: nat, file: string)
    requires k < |instructions|
    ensures file + TextOf(PrintAll(instructions[k..])) ==
            (file + StringRep(instructions[k]) + [NL]) + TextOf(PrintAll(instructions[k + 1..]))
  {
    var line := StringRep(instructions[k]);
    var rest := PrintAll(instructions[k + 1..]);
    assert instructions[k..][1..] == instructions[k + 1..];
    assert PrintAll(instructions[k..]) == [line] + rest;
    assert ([line] + rest)[1..] == rest;
    var more := TextOf(rest);
    assert file + (line + [NL] + more) == (file + line + [NL]) + more;
  }

  /** Each instruction is appended to the file as a line. */
  method WriteInstructionVector(instructions: seq<Instruction>) returns (file: string)
    ensures file == TextOf(PrintAll(instructions))
  {
    file := "";
    assert instructions[0..] == instructions;
    for k := 0 to |instructions|
      invariant file + TextOf(PrintAll(instructions[k..])) == TextOf(PrintAll(instructions))
    {
      WriteNext(instructions, k, file);
      file := file + StringRep(instructions[k]) + [NL];
    }
    assert instructions[|instructions|..] == [] && file + "" == file;
  }

  /** What is left of an instruction in the file: a reject keeps its id only. */
  function Written(i: Instruction): Instruction {
    if i.Reject? then Reject(0, 0, 0, i.id) else i
  }

  function WrittenAll(list: seq<Instruction>): (w: seq<Instruction>)
    ensures |w| == |list| && forall k :: 0 <= k < |list| ==> w[k] == Written(list[k])
  {
    if list == [] then [] else [Written(list[0])] + WrittenAll(list[1..])
  }

  predicate PrintableId(id: string) {
    CleanField(id, COMMA) && CR !in id && NL !in id
  }

  /** An instruction of one of the four kinds whose id is a field that splitting a line can produce. */
  predicate Printable(i: Instruction) {
    !i.Blank? && PrintableId(i.id)
  }

  lemma {:induction false} WithoutCRSame(s: string)
    requires CR !in s
    ensures WithoutCR(s) == s
  {
    if s != "" {
      WithoutCRSame(s[1..]);
    }
  }

  lemma StringsAreClean(ns: seq<int>)
    ensures forall f :: f in StringsOf(ns) ==> CleanField(f, COMMA)
  {
    forall f | f in StringsOf(ns) ensures CleanField(f, COMMA) {
      var k :| 0 <= k < |ns| && f == ToString(ns[k]);
      NumberIsClean(ns[k]);
    }
  }

  lemma FieldsAreClean(i: Instruction)
    requires Printable(i)
    ensures forall f :: f in FieldsOf(i) ==> CleanField(f, COMMA)
  {
    assert CleanField([TypeChar(i)], COMMA);
    if !i.Reject? {
      StringsAreClean([i.floor, i.row, i.col]);
      if i.Move? {
        StringsAreClean([i.destFloor, i.destRow, i.destCol]);
      }
    }
    forall f | f in FieldsOf(i) ensures CleanField(f, COMMA) {
    }
  }

  lemma NumbersOneMore(x: string, n: int, rest: seq<string>, m: seq<int>)
    requires Stoi(x) == Some(n) && Numbers(rest) == Some(m)
    ensures Numbers([x] + rest) == Some([n] + m)
  {
    assert ([x] + rest)[1..] == rest;
  }

  lemma {:induction false} NumbersUndoStrings(ns: seq<int>)
    ensures Numbers(StringsOf(ns)) == Some(ns)
  {
    if ns != [] {
      StoiUndoesToString(ns[0]);
      NumbersUndoStrings(ns[1..]);
      NumbersOneMore(ToString(ns[0]), ns[0], StringsOf(ns[1..]), ns[1..]);
      assert [ToString(ns[0])] + StringsOf(ns[1..]) == StringsOf(ns);
      assert [ns[0]] + ns[1..] == ns;
    }
  }

  lemma ReadLong(fields: seq<string>, at: seq<int>, dest: seq<int>)
    requires |fields| >= 5 && fields[0] != "R" && |at| == |dest| == 3
    requires Numbers(fields[2..5]) == Some(at)
    requires if |fields| == 8 && fields[0] == "M" then Numbers(fields[5..8]) == Some(dest) else dest == [0, 0, 0]
    ensures ReadLine(fields) ==
            Some(Line(Make(fields[0], at[0], at[1], at[2], dest[0], dest[1], dest[2], fields[1]), true))
  {
  }

  lemma FieldsByPlace(i: Instruction)
    requires !i.Reject?
    ensures var f := FieldsOf(i);
            && |f| == (if i.Move? then 8 else 5) && f[0] == [TypeChar(i)] && f[1] == i.id
            && f[2..5] == StringsOf([i.floor, i.row, i.col])
            && (i.Move? ==> f[5..8] == StringsOf([i.destFloor, i.destRow, i.destCol]))
  {
  }

  lemma ReadUndoesPrint(i: Instruction)
    requires Printable(i)
    ensures ReadLine(FieldsOf(i)) == Some(Line(Written(i), true))
  {
    if !i.Reject? {
      var at := [i.floor, i.row, i.col];
      var dest := if i.Move? then [i.destFloor, i.destRow, i.destCol] else [0, 0, 0];
      NumbersUndoStrings(at);
      NumbersUndoStrings(dest);
      FieldsByPlace(i);
      ReadLong(FieldsOf(i), at, dest);
    }
  }

  lemma NumberIsPlain(n: int)
    ensures CR !in ToString(n) && NL !in ToString(n)
  {
    var s := ToString(n);
    assert forall k :: 0 <= k < |s| ==> IsDigit(s[k]) || s[k] == '-';
  }

  lemma LineIsPlain(i: Instruction)
    requires Printable(i)
    ensures CR !in StringRep(i) && NL !in StringRep(i) && StringRep(i) != "" && StringRep(i)[0] != '#'
  {
    NumberIsPlain(i.floor);
    NumberIsPlain(i.row);
    NumberIsPlain(i.col);
    if i.Move? {
      NumberIsPlain(i.destFloor);
      NumberIsPlain(i.destRow);
      NumberIsPlain(i.destCol);
    }
  }

  lemma LineComesBack(i: Instruction)
    requires Printable(i)
    ensures WithoutCR(StringRep(i)) == StringRep(i) && Split(StringRep(i), COMMA) == FieldsOf(i)
  {
    PrintIsJoin(i);
    FieldsAreClean(i);
    SplitJoin(FieldsOf(i));
    LineIsPlain(i);
    WithoutCRSame(StringRep(i));
  }

  lemma {:induction false} FieldsUndoPrintAll(list: seq<Instruction>, flag: bool)
    requires forall i :: i in list ==> Printable(i)
    ensures ReadFrom(ParseLines(PrintAll(list)), flag) == Some(WrittenAll(list))
    decreases |list|
  {
    if list != [] {
      var i := list[0];
      LineComesBack(i);
      LineIsPlain(i);
      ReadUndoesPrint(i);
      FieldsUndoPrintAll(list[1..], true);
      var lines := PrintAll(list);
      assert lines[1..] == PrintAll(list[1..]);
      var data := ParseLines(lines);
      assert data == [FieldsOf(i)] + ParseLines(lines[1..]);
      assert data[1..] == ParseLines(lines[1..]);
    }
  }

  lemma {:induction false} PrintedArePlain(list: seq<Instruction>)
    requires forall i :: i in list ==> Printable(i)
    ensures forall l :: l in PrintAll(list) ==> NL !in l
  {
    if list != [] {
      LineIsPlain(list[0]);
      PrintedArePlain(list[1..]);
    }
  }

  /** Reading back the file of any printed list gives the list, rejects with their id only. */
  lemma ReadUndoesPrintAll(list: seq<Instruction>, flag: bool)
    requires forall i :: i in list ==> Printable(i)
    ensures ReadFrom(ParseLines(LinesOf(TextOf(PrintAll(list)))), flag) == Some(WrittenAll(list))
  {
    PrintedArePlain(list);
    LinesUndoText(PrintAll(list));
    FieldsUndoPrintAll(list, flag);
  }

  // ----- lines that are not complete -----

  predicate IsComplete(fields: seq<string>) {
    |fields| >= 5 || (|fields| >= 2 && fields[0] == "R")
  }

  /** A line that is not complete gives an instruction with zeros for what it lacks. */
  lemma IncompleteLine(fields: seq<string>)
    ensures ReadLine(fields).Some? ==> (ReadLine(fields).value.complete <==> IsComplete(fields))
    ensures !IsComplete(fields) ==>
              ReadLine(fields) ==
              Some(Line(if |fields| < 2 then Blank(0, 0, 0, "")
                        else Make(fields[0], 0, 0, 0, 0, 0, 0, fields[1]), false))
  {
  }

  /** Every field begins with a number. */
  predicate AllRead(f: seq<string>) {
    forall k :: 0 <= k < |f| ==> Stoi(f[k]).Some?
  }

  lemma AllReadNext(f: seq<string>)
    requires f != []
    ensures AllRead(f) <==> Stoi(f[0]).Some? && AllRead(f[1..])
  {
    assert forall k :: 0 < k < |f| ==> f[k] == f[1..][k - 1];
  }

  lemma NumbersNext(f: seq<string>, first: Option<int>, rest: Option<seq<int>>)
    requires f != [] && first == Stoi(f[0]) && rest == Numbers(f[1..])
    ensures Numbers(f) == if first.None? || rest.None? then None else Some([first.value] + rest.value)
  {
  }

  /** The numbers of some fields, one by one. */
  lemma {:induction false} NumbersExactly(f: seq<string>)
    ensures Numbers(f).Some? <==> AllRead(f)
    ensures Numbers(f).Some? ==> forall k :: 0 <= k < |f| ==> Stoi(f[k]) == Some(Numbers(f).value[k])
  {
    if f != [] {
      var first, rest := Stoi(f[0]), Numbers(f[1..]);
      NumbersExactly(f[1..]);
      NumbersNext(f, first, rest);
      AllReadNext(f);
      if first.Some? && rest.Some? {
        forall k | 0 <= k < |f|
          ensures Stoi(f[k]) == Some(([first.value] + rest.value)[k])
        {
          if k > 0 {
            assert f[k] == f[1..][k - 1];
          }
        }
      }
    }
  }

  /** A complete line that is no reject can be read exactly when its numbers can: height, row and
      column, and in a move of exactly eight fields those of the destination. */
  lemma CompleteLine(fields: seq<string>)
    requires |fields| >= 5 && fields[0] != "R"
    ensures ReadLine(fields).Some? <==>
            AllRead(fields[2..5]) && (|fields| == 8 && fields[0] == "M" ==> AllRead(fields[5..8]))
  {
    NumbersExactly(fields[2..5]);
    if |fields| == 8 && fields[0] == "M" {
      NumbersExactly(fields[5..8]);
    }
  }

  /** What it says then. A move of another length has no destination. */
  lemma CompleteLineSays(fields: seq<string>, at: seq<int>)
    requires |fields| >= 5 && |at| == 3 && Numbers(fields[2..5]) == Some(at)
    ensures fields[0] == "L" ==> ReadLine(fields) == Some(Line(Load(at[1], at[2], at[0], fields[1]), true))
    ensures fields[0] == "U" ==> ReadLine(fields) == Some(Line(Unload(at[1], at[2], at[0], fields[1]), true))
    ensures fields[0] == "M" && |fields| != 8 ==>
              ReadLine(fields) == Some(Line(Move(at[1], at[2], at[0], 0, 0, 0, fields[1]), true))
    ensures fields[0] !in ["L", "U", "M", "R"] ==>
              ReadLine(fields) == Some(Line(Blank(at[1], at[2], at[0], fields[1]), true))
  {
    if fields[0] != "R" && !(|fields| == 8 && fields[0] == "M") {
      ReadLong(fields, at, [0, 0, 0]);
    }
  }

  lemma CompleteMoveSays(fields: seq<string>, at: seq<int>, dest: seq<int>)
    requires |fields| == 8 && fields[0] == "M" && |at| == |dest| == 3
    requires Numbers(fields[2..5]) == Some(at) && Numbers(fields[5..8]) == Some(dest)
    ensures ReadLine(fields) ==
            Some(Line(Move(at[1], at[2], at[0], dest[1], dest[2], dest[0], fields[1]), true))
  {
    ReadLong(fields, at, dest);
  }

  /** The first complete line, or the number of lines if there is none. */
  function FirstComplete(data: seq<seq<string>>): (k: nat)
    ensures k <= |data| && forall j :: 0 <= j < k ==> !IsComplete(data[j])
    ensures k < |data| ==> IsComplete(data[k])
  {
    if data == [] || IsComplete(data[0]) then 0 else 1 + FirstComplete(data[1..])
  }

  /** No conversion fails. */
  predicate Readable(data: seq<seq<string>>) {
    forall k :: 0 <= k < |data| ==> ReadLine(data[k]).Some?
  }

  /** What the lines say, each by itself. */
  function InstructionsOf(data: seq<seq<string>>): (list: seq<Instruction>)
    requires Readable(data)
    ensures |list| == |data| && forall k :: 0 <= k < |data| ==> list[k] == ReadLine(data[k]).value.instruction
  {
    seq(|data|, k requires 0 <= k < |data| => ReadLine(data[k]).value.instruction)
  }

  lemma InstructionsNext(data: seq<seq<string>>)
    requires data != [] && Readable(data)
    ensures Readable(data[1..])
    ensures InstructionsOf(data) == [ReadLine(data[0]).value.instruction] + InstructionsOf(data[1..])
  {
  }

  lemma ReadableNext(data: seq<seq<string>>)
    requires data != []
    ensures Readable(data) <==> ReadLine(data[0]).Some? && Readable(data[1..])
  {
    assert data == [data[0]] + data[1..];
    assert forall k :: 0 <= k < |data| - 1 ==> data[1..][k] == data[k + 1];
    assert forall k :: 0 < k < |data| ==> data[k] == data[1..][k - 1];
  }

  /** The instructions of the lines from the first complete one on, or of all lines. */
  function KeptFrom(data: seq<seq<string>>, flag: bool): seq<Instruction>
    requires Readable(data)
  {
    InstructionsOf(data)[if flag then 0 else FirstComplete(data)..]
  }

  lemma KeptNext(data: seq<seq<string>>, flag: bool, flag': bool)
    requires data != [] && Readable(data) && Readable(data[1..]) && flag' == (flag || IsComplete(data[0]))
    ensures KeptFrom(data, flag) ==
            (if flag' then [ReadLine(data[0]).value.instruction] else []) + KeptFrom(data[1..], flag')
  {
    InstructionsNext(data);
    DropFromNext(ReadLine(data[0]).value.instruction, InstructionsOf(data[1..]),
                 if flag' then 0 else FirstComplete(data[1..]));
  }

  lemma DropFromNext(x: Instruction, rest: seq<Instruction>, k: nat)
    requires k <= |rest|
    ensures ([x] + rest)[0..] == [x] + rest && ([x] + rest)[k + 1..] == rest[k..] && [] + rest[k..] == rest[k..]
  {
  }

  lemma ReadNext(data: seq<seq<string>>, flag: bool, flag': bool)
    requires data != [] && ReadLine(data[0]).Some? && flag' == (flag || IsComplete(data[0]))
    ensures ReadFrom(data, flag) ==
            After(if flag' then [ReadLine(data[0]).value.instruction] else [], ReadFrom(data[1..], flag'))
  {
    IncompleteLine(data[0]);
  }

  /** Reading succeeds exactly when every number does. Then it gives the instructions of all lines
      from the first complete one on, of incomplete lines too; what stands before is dropped. */
  lemma {:induction false} ReadsFromFirstComplete(data: seq<seq<string>>, flag: bool)
    ensures ReadFrom(data, flag).Some? <==> Readable(data)
    ensures Readable(data) ==> ReadFrom(data, flag) == Some(KeptFrom(data, flag))
    decreases |data|
  {
    if data != [] {
      ReadableNext(data);
      if ReadLine(data[0]).Some? {
        var flag' := flag || IsComplete(data[0]);
        ReadNext(data, flag, flag');
        ReadsFromFirstComplete(data[1..], flag');
        if Readable(data) {
          KeptNext(data, flag, flag');
        }
      }
    }
  }
}
