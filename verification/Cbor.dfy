/** The bounded CBOR reader (RFC 8949, definite lengths only), proved equal to a grammar of
    encoded items. `used` counts consumed bytes, on failures too. */
module Cbor {
  import opened Text

  const MAX_DEPTH := 8

  datatype Fault =
    | Truncated | IndefiniteLength | ReservedInfo | LengthPastEnd | ArrayPastEnd | MapPastEnd
    | TooDeep | WrongType | OutOfRange

  datatype Result<+T> = Ok(value: T, used: nat) | Err(fault: Fault, used: nat)

  // ---- heads ---------------------------------------------------------------

  function BigEndian(s: seq<byte>): nat
  {
    if s == [] then 0 else 256 * BigEndian(s[..|s| - 1]) + s[|s| - 1]
  }

  function Extra(info: int): nat
    requires 24 <= info <= 27
  {
    if info == 24 then 1 else if info == 25 then 2 else if info == 26 then 4 else 8
  }

  datatype Head = Head(major: int, arg: nat)

  function ReadHead(s: seq<byte>): (r: Result<Head>)
    ensures r.used <= |s|
    ensures r.Ok? ==> r.used >= 1 && 0 <= r.value.major < 8
  {
    if s == [] then Err(Truncated, 0)
    else
      var major, info := s[0] / 32, s[0] % 32;
      if info < 24 then Ok(Head(major, info), 1)
      else if info == 31 then Err(IndefiniteLength, 1)
      else if info > 27 then Err(ReservedInfo, 1)
      else
        var n := Extra(info);
        if |s| < 1 + n then Err(Truncated, |s|) else Ok(Head(major, BigEndian(s[1..1 + n])), 1 + n)
  }

  // ---- skip ------------------------------------------------------------------

  // Outcome of skipping: the fault if any, the bytes consumed, the number of skip() calls made.
  datatype Skipped = Skipped(fault: Option<Fault>, used: nat, calls: nat)

  function Skip(s: seq<byte>, depth: int): (o: Skipped)
    ensures o.used <= |s|
    decreases |s|, 0, 0
  {
    if depth > MAX_DEPTH then Skipped(Some(TooDeep), 0, 1)
    else
      match ReadHead(s)
      case Err(f, u) => Skipped(Some(f), u, 1)
      case Ok(h, u) => SkipBody(h, u, s[u..], depth)
  }

  // The switch on the major type, after a head of u bytes.
  function SkipBody(h: Head, u: nat, rest: seq<byte>, depth: int): (o: Skipped)
    ensures u <= o.used <= u + |rest|
    decreases |rest|, 2, 0
  {
    if h.major == 2 || h.major == 3 then
      if h.arg > |rest| then Skipped(Some(LengthPastEnd), u, 1) else Skipped(None, u + h.arg, 1)
    else if h.major == 4 then
      if h.arg > |rest| then Skipped(Some(ArrayPastEnd), u, 1) else After(u, SkipMany(rest, h.arg, depth + 1))
    else if h.major == 5 then
      if h.arg > |rest| / 2 then Skipped(Some(MapPastEnd), u, 1) else After(u, SkipMany(rest, 2 * h.arg, depth + 1))
    else if h.major == 6 then After(u, Skip(rest, depth + 1))
    else Skipped(None, u, 1)
  }

  function After(u: nat, o: Skipped): Skipped
  {
    Skipped(o.fault, u + o.used, 1 + o.calls)
  }

  function SkipMany(s: seq<byte>, n: nat, depth: int): (o: Skipped)
    ensures o.used <= |s|
    decreases |s|, 1, n
  {
    if n == 0 then Skipped(None, 0, 0)
    else
      var first := Skip(s, depth);
      if first.fault.Some? then first
      else
        var others := SkipMany(s[first.used..], n - 1, depth);
        Skipped(others.fault, first.used + others.used, first.calls + others.calls)
  }

  // Work is bounded by input: every call but the last one has consumed at least one byte.
  lemma {:induction false} CallsBounded(s: seq<byte>, depth: int)
    ensures var o := Skip(s, depth);
            1 <= o.calls <= o.used + 1 && (o.fault.None? ==> o.calls <= o.used)
    decreases |s|, 0, 0
  {
    if depth <= MAX_DEPTH && ReadHead(s).Ok? {
      var h, rest := ReadHead(s).value, s[ReadHead(s).used..];
      if h.major == 4 && h.arg <= |rest| { CallsBoundedMany(rest, h.arg, depth + 1); }
      else if h.major == 5 && h.arg <= |rest| / 2 { CallsBoundedMany(rest, 2 * h.arg, depth + 1); }
      else if h.major == 6 { CallsBounded(rest, depth + 1); }
    }
  }

  lemma {:induction false} CallsBoundedMany(s: seq<byte>, n: nat, depth: int)
    ensures var o := SkipMany(s, n, depth);
            o.calls <= o.used + 1 && (o.fault.None? ==> o.calls <= o.used)
    decreases |s|, 1, n
  {
    if n > 0 {
      CallsBounded(s, depth);
      var first := Skip(s, depth);
      if first.fault.None? { CallsBoundedMany(s[first.used..], n - 1, depth); }
    }
  }

  // ---- the grammar -----------------------------------------------------------

  // How many bytes an argument is written in; longer than necessary is legal.
  datatype Width = Direct | One | Two | Four | Eight

  function Bytes(w: Width): nat
  {
    match w case Direct => 0 case One => 1 case Two => 2 case Four => 4 case Eight => 8
  }

  function Info(w: Width, arg: nat): int
  {
    match w case Direct => arg case One => 24 case Two => 25 case Four => 26 case Eight => 27
  }

  function Pow256(n: nat): (p: nat)
    ensures p >= 1
  {
    if n == 0 then 1 else 256 * Pow256(n - 1)
  }

  predicate Fits(w: Width, arg: nat)
  {
    if w == Direct then arg < 24 else arg < Pow256(Bytes(w))
  }

  function ToBigEndian(n: nat, v: nat): (s: seq<byte>)
    ensures |s| == n
  {
    if n == 0 then [] else ToBigEndian(n - 1, v / 256) + [v % 256]
  }

  function EncodeHead(major: int, w: Width, arg: nat): (s: seq<byte>)
    requires 0 <= major < 8 && Fits(w, arg)
    ensures |s| == 1 + Bytes(w)
  {
    [32 * major + Info(w, arg)] + ToBigEndian(Bytes(w), arg)
  }

  datatype Item =
    | Number(negative: bool, w: Width, arg: nat)
    | Str(text: bool, w: Width, payload: seq<byte>)
    | Array(w: Width, items: seq<Item>)
    | Map(w: Width, entries: seq<Item>)        // keys and values in turn
    | Tag(w: Width, tag: nat, content: Item)
    | Simple(w: Width, arg: nat)               // simple values and floats, any argument

  ghost predicate WellFormed(i: Item)
  {
    match i
    case Number(_, w, arg) => Fits(w, arg)
    case Str(_, w, p) => Fits(w, |p|)
    case Array(w, items) => Fits(w, |items|) && forall x | x in items :: WellFormed(x)
    case Map(w, es) => |es| % 2 == 0 && Fits(w, |es| / 2) && forall x | x in es :: WellFormed(x)
    case Tag(w, tag, c) => Fits(w, tag) && WellFormed(c)
    case Simple(w, arg) => Fits(w, arg)
  }

  ghost function Encode(i: Item): (s: seq<byte>)
    requires WellFormed(i)
    ensures |s| >= 1
  {
    match i
    case Number(negative, w, arg) => EncodeHead(if negative then 1 else 0, w, arg)
    case Str(text, w, p) => EncodeHead(if text then 3 else 2, w, |p|) + p
    case Array(w, items) => EncodeHead(4, w, |items|) + EncodeAll(items)
    case Map(w, es) => EncodeHead(5, w, |es| / 2) + EncodeAll(es)
    case Tag(w, tag, c) => EncodeHead(6, w, tag) + Encode(c)
    case Simple(w, arg) => EncodeHead(7, w, arg)
  }

  ghost function EncodeAll(items: seq<Item>): (s: seq<byte>)
    requires forall x | x in items :: WellFormed(x)
    ensures |s| >= |items|
  {
    if items == [] then [] else Encode(items[0]) + EncodeAll(items[1..])
  }

  // Levels below the item itself.
  ghost function Height(i: Item): nat
  {
    match i
    case Array(_, items) => HeightAll(items)
    case Map(_, es) => HeightAll(es)
    case Tag(_, _, c) => 1 + Height(c)
    case _ => 0
  }

  ghost function HeightAll(items: seq<Item>): nat
  {
    if items == [] then 0
    else
      var first, others := 1 + Height(items[0]), HeightAll(items[1..]);
      if first > others then first else others
  }

  // ---- heads and the grammar -------------------------------------------------

  lemma {:induction false} BigEndianRoundTrip(n: nat, v: nat)
    requires v < Pow256(n)
    ensures BigEndian(ToBigEndian(n, v)) == v
  {
    if n > 0 {
      BigEndianRoundTrip(n - 1, v / 256);
      var s := ToBigEndian(n, v);
      assert s[..n - 1] == ToBigEndian(n - 1, v / 256);
    }
  }

  lemma {:induction false} BigEndianOnto(s: seq<byte>)
    ensures BigEndian(s) < Pow256(|s|) && ToBigEndian(|s|, BigEndian(s)) == s
  {
    if s != [] {
      var t := s[..|s| - 1];
      BigEndianOnto(t);
      assert BigEndian(s) / 256 == BigEndian(t);
      assert s == t + [s[|s| - 1]];
    }
  }

  lemma HeadRoundTrip(major: int, w: Width, arg: nat, rest: seq<byte>)
    requires 0 <= major < 8 && Fits(w, arg)
    ensures ReadHead(EncodeHead(major, w, arg) + rest) == Ok(Head(major, arg), 1 + Bytes(w))
  {
    hide BigEndian, ToBigEndian, Pow256, EncodeHead;
    HeadFirst(major, w, arg, rest);
    if w != Direct {
      HeadArgument(major, w, arg, rest);
      BigEndianRoundTrip(Bytes(w), arg);
    }
  }

  lemma Octet(major: int, info: int)
    requires 0 <= major < 8 && 0 <= info < 32
    ensures (32 * major + info) / 32 == major && (32 * major + info) % 32 == info
  {
  }

  lemma HeadFirst(major: int, w: Width, arg: nat, rest: seq<byte>)
    requires 0 <= major < 8 && Fits(w, arg)
    ensures var s := EncodeHead(major, w, arg) + rest;
            |s| >= 1 + Bytes(w) && s[0] / 32 == major && s[0] % 32 == Info(w, arg)
  {
    hide ToBigEndian, Pow256;
    Octet(major, Info(w, arg));
    var s := EncodeHead(major, w, arg) + rest;
    assert s[0] == 32 * major + Info(w, arg);
  }

  lemma HeadArgument(major: int, w: Width, arg: nat, rest: seq<byte>)
    requires 0 <= major < 8 && Fits(w, arg)
    ensures (EncodeHead(major, w, arg) + rest)[1..1 + Bytes(w)] == ToBigEndian(Bytes(w), arg)
  {
    hide ToBigEndian, Pow256, Info;
  }

  lemma HeadSound(s: seq<byte>) returns (w: Width)
    requires ReadHead(s).Ok?
    ensures var h := ReadHead(s).value;
            && Fits(w, h.arg) && ReadHead(s).used == 1 + Bytes(w)
            && EncodeHead(h.major, w, h.arg) == s[..ReadHead(s).used]
  {
    var info := s[0] % 32;
    w := if info < 24 then Direct else if info == 24 then One else if info == 25 then Two
         else if info == 26 then Four else Eight;
    if w != Direct {
      BigEndianOnto(s[1..1 + Bytes(w)]);
    }
  }

  // ---- exactness -------------------------------------------------------------

  // A well-formed item at the front is skipped to its last byte, unless it nests too deeply;
  // the array and map count guards never refuse it.
  lemma {:induction false} SkipsItem(i: Item, rest: seq<byte>, depth: int)
    requires WellFormed(i)
    ensures var o := Skip(Encode(i) + rest, depth);
            if depth + Height(i) <= MAX_DEPTH then o.fault.None? && o.used == |Encode(i)|
            else o.fault == Some(TooDeep)
    decreases i, 0
  {
    hide Skip, EncodeHead, Fits;
    match i
    case Array(w, items) =>
      Reassociate(EncodeHead(4, w, |items|), EncodeAll(items), rest);
      SkipAfterHead(4, w, |items|, EncodeAll(items) + rest, depth);
      SkipsItems(items, rest, depth + 1);
    case Map(w, es) =>
      Reassociate(EncodeHead(5, w, |es| / 2), EncodeAll(es), rest);
      SkipAfterHead(5, w, |es| / 2, EncodeAll(es) + rest, depth);
      SkipsItems(es, rest, depth + 1);
    case Tag(w, tag, c) =>
      Reassociate(EncodeHead(6, w, tag), Encode(c), rest);
      SkipAfterHead(6, w, tag, Encode(c) + rest, depth);
      SkipsItem(c, rest, depth + 1);
    case _ => SkipsLeaf(i, rest, depth);
  }

  lemma SkipsLeaf(i: Item, rest: seq<byte>, depth: int)
    requires WellFormed(i) && (i.Number? || i.Str? || i.Simple?)
    ensures var o := Skip(Encode(i) + rest, depth);
            if depth <= MAX_DEPTH then o.fault.None? && o.used == |Encode(i)| else o.fault == Some(TooDeep)
  {
    hide Skip, EncodeHead, Fits;
    match i
    case Number(negative, w, arg) =>
      SkipAfterHead(if negative then 1 else 0, w, arg, rest, depth);
    case Str(text, w, p) =>
      Reassociate(EncodeHead(if text then 3 else 2, w, |p|), p, rest);
      SkipAfterHead(if text then 3 else 2, w, |p|, p + rest, depth);
    case Simple(w, arg) =>
      SkipAfterHead(7, w, arg, rest, depth);
  }

  lemma Reassociate(head: seq<byte>, body: seq<byte>, rest: seq<byte>)
    ensures head + body + rest == head + (body + rest)
  {
  }

  lemma SkipAfterHead(major: int, w: Width, arg: nat, rest: seq<byte>, depth: int)
    requires 0 <= major < 8 && Fits(w, arg)
    ensures Skip(EncodeHead(major, w, arg) + rest, depth) ==
            if depth > MAX_DEPTH then Skipped(Some(TooDeep), 0, 1)
            else SkipBody(Head(major, arg), 1 + Bytes(w), rest, depth)
  {
    hide ReadHead, EncodeHead, Fits, SkipBody;
    HeadRoundTrip(major, w, arg, rest);
    assert (EncodeHead(major, w, arg) + rest)[1 + Bytes(w)..] == rest;
  }

  lemma {:induction false} SkipsItems(items: seq<Item>, rest: seq<byte>, depth: int)
    requires forall x | x in items :: WellFormed(x)
    ensures var o := SkipMany(EncodeAll(items) + rest, |items|, depth);
            if depth - 1 + HeightAll(items) <= MAX_DEPTH then o.fault.None? && o.used == |EncodeAll(items)|
            else depth - 1 <= MAX_DEPTH ==> o.fault == Some(TooDeep)
    decreases items, 1
  {
    if items != [] {
      var first, others := items[0], items[1..];
      var more := EncodeAll(others) + rest;
      assert EncodeAll(items) + rest == Encode(first) + more;
      SkipsItem(first, more, depth);
      SkipsItems(others, rest, depth);
      assert (Encode(first) + more)[|Encode(first)|..] == more;
    }
  }

  // Whatever is skipped is one well-formed item.
  lemma {:induction false} SkippedIsItem(s: seq<byte>, depth: int) returns (i: Item)
    requires Skip(s, depth).fault.None?
    ensures WellFormed(i) && Encode(i) == s[..Skip(s, depth).used]
    decreases |s|, 0, 0
  {
    hide ReadHead, EncodeHead, Fits, SkipBody, WellFormed, Encode;
    var h, u := ReadHead(s).value, ReadHead(s).used;
    var w := HeadSound(s);
    i := BodyIsItem(h, w, s[u..], depth);
    SplitPrefix(s, u, Skip(s, depth).used);
  }

  lemma {:induction false} BodyIsItem(h: Head, w: Width, rest: seq<byte>, depth: int) returns (i: Item)
    requires 0 <= h.major < 8 && Fits(w, h.arg)
    requires SkipBody(h, 1 + Bytes(w), rest, depth).fault.None?
    ensures WellFormed(i)
    ensures Encode(i) ==
            EncodeHead(h.major, w, h.arg) + rest[..SkipBody(h, 1 + Bytes(w), rest, depth).used - 1 - Bytes(w)]
    decreases |rest|, 2, 0
  {
    hide EncodeHead, Fits, Skip, SkipMany;
    if h.major == 4 || h.major == 5 {
      var n := if h.major == 4 then h.arg else 2 * h.arg;
      var items := SkippedAreItems(rest, n, depth + 1);
      i := if h.major == 4 then Array(w, items) else Map(w, items);
    } else if h.major == 6 {
      var c := SkippedIsItem(rest, depth + 1);
      i := Tag(w, h.arg, c);
    } else {
      i := LeafIsItem(h, w, rest, depth);
    }
  }

  lemma LeafIsItem(h: Head, w: Width, rest: seq<byte>, depth: int) returns (i: Item)
    requires h.major in {0, 1, 2, 3, 7} && Fits(w, h.arg)
    requires SkipBody(h, 1 + Bytes(w), rest, depth).fault.None?
    ensures WellFormed(i)
    ensures Encode(i) ==
            EncodeHead(h.major, w, h.arg) + rest[..SkipBody(h, 1 + Bytes(w), rest, depth).used - 1 - Bytes(w)]
  {
    hide EncodeHead, Fits;
    var head := EncodeHead(h.major, w, h.arg);
    assert head + rest[..0] == head;
    i := if h.major <= 1 then Number(h.major == 1, w, h.arg)
         else if h.major <= 3 then Str(h.major == 3, w, rest[..h.arg])
         else Simple(w, h.arg);
  }

  lemma SplitPrefix(s: seq<byte>, u: nat, n: nat)
    requires u <= n <= |s|
    ensures s[..n] == s[..u] + s[u..][..n - u]
  {
  }

  lemma {:induction false} SkippedAreItems(s: seq<byte>, n: nat, depth: int) returns (items: seq<Item>)
    requires SkipMany(s, n, depth).fault.None?
    ensures |items| == n && (forall x | x in items :: WellFormed(x))
    ensures EncodeAll(items) == s[..SkipMany(s, n, depth).used]
    decreases |s|, 1, n
  {
    hide Skip, Encode, WellFormed;
    if n == 0 {
      items := [];
    } else {
      var used := Skip(s, depth).used;
      var first := SkippedIsItem(s, depth);
      var others := SkippedAreItems(s[used..], n - 1, depth);
      items := [first] + others;
      assert items[1..] == others;
      SplitPrefix(s, used, SkipMany(s, n, depth).used);
    }
  }

  // skip() accepts exactly the inputs that begin with a well-formed item nested within the
  // limit, and stops exactly after it.
  lemma SkipExact(s: seq<byte>, depth: int)
    ensures Skip(s, depth).fault.None? <==>
            exists i :: WellFormed(i) && Encode(i) <= s && depth + Height(i) <= 8
    ensures forall i | WellFormed(i) && Encode(i) <= s && depth + Height(i) <= 8 ::
              Skip(s, depth).used == |Encode(i)|
  {
    forall i | WellFormed(i) && Encode(i) <= s
      ensures depth + Height(i) <= 8 <==> Skip(s, depth).fault.None?
      ensures depth + Height(i) <= 8 ==> Skip(s, depth).used == |Encode(i)|
    {
      assert s == Encode(i) + s[|Encode(i)|..];
      SkipsItem(i, s[|Encode(i)|..], depth);
    }
    if Skip(s, depth).fault.None? {
      var i := SkippedIsItem(s, depth);
      assert Encode(i) <= s;
    }
  }

  // ---- typed reads -----------------------------------------------------------

  const INT64_MAX := 0x7fff_ffff_ffff_ffff

  // text() and bytes(): major type 3 or 2.
  function ReadString(s: seq<byte>, major: int): (r: Result<seq<byte>>)
    ensures r.used <= |s|
  {
    match ReadHead(s)
    case Err(f, u) => Err(f, u)
    case Ok(h, u) =>
      if h.major != major then Err(WrongType, u)
      else if h.arg > |s| - u then Err(LengthPastEnd, u)
      else Ok(s[u..u + h.arg], u + h.arg)
  }

  function ReadInteger(s: seq<byte>): (r: Result<int>)
    ensures r.used <= |s|
  {
    match ReadHead(s)
    case Err(f, u) => Err(f, u)
    case Ok(h, u) =>
      if h.major != 0 && h.major != 1 then Err(WrongType, u)
      else if h.arg > INT64_MAX then Err(OutOfRange, u)
      else Ok(if h.major == 0 then h.arg else -1 - h.arg, u)
  }

  // array_count() is (4, 1), map_count() is (5, 2).
  function ReadCount(s: seq<byte>, major: int, per: nat): (r: Result<nat>)
    requires per > 0
    ensures r.used <= |s|
  {
    match ReadHead(s)
    case Err(f, u) => Err(f, u)
    case Ok(h, u) =>
      if h.major != major then Err(WrongType, u)
      else if h.arg > (|s| - u) / per then Err(if major == 5 then MapPastEnd else ArrayPastEnd, u)
      else Ok(h.arg, u)
  }

  // key(): the text of a text key, "" for a key of any other type, which is skipped.
  function ReadKey(s: seq<byte>): (r: Result<seq<byte>>)
    ensures r.used <= |s|
  {
    if s == [] then Err(Truncated, 0)
    else if s[0] / 32 == 3 then ReadString(s, 3)
    else
      var o := Skip(s, 1);
      if o.fault.Some? then Err(o.fault.value, o.used) else Ok([], o.used)
  }

  function Magnitude(v: int): nat { if v < 0 then -1 - v else v }

  // Every int64, both extremes included, reads back from every head wide enough for it, and
  // an accepted integer is always such an encoding.
  lemma IntegerRoundTrip(v: int, w: Width, rest: seq<byte>)
    requires -INT64_MAX - 1 <= v <= INT64_MAX
    ensures Fits(Eight, Magnitude(v))
    ensures Fits(w, Magnitude(v)) ==>
              ReadInteger(EncodeHead(if v < 0 then 1 else 0, w, Magnitude(v)) + rest) == Ok(v, 1 + Bytes(w))
  {
    hide ReadHead, EncodeHead, Pow256;
    EightBytes();
    if Fits(w, Magnitude(v)) { HeadRoundTrip(if v < 0 then 1 else 0, w, Magnitude(v), rest); }
  }

  lemma EightBytes()
    ensures Pow256(8) == 0x1_0000_0000_0000_0000
  {
    assert Pow256(2) == 0x1_0000;
    assert Pow256(4) == 0x1_0000_0000;
    assert Pow256(6) == 0x1_0000_0000_0000;
  }

  lemma IntegerSound(s: seq<byte>) returns (w: Width)
    requires ReadInteger(s).Ok?
    ensures var v := ReadInteger(s).value;
            && -INT64_MAX - 1 <= v <= INT64_MAX && Fits(w, Magnitude(v))
            && s[..ReadInteger(s).used] == EncodeHead(if v < 0 then 1 else 0, w, Magnitude(v))
  {
    hide ReadHead, EncodeHead, Fits;
    w := HeadSound(s);
  }

  lemma StringRoundTrip(text: bool, payload: seq<byte>, w: Width, rest: seq<byte>)
    requires Fits(w, |payload|)
    ensures var e := Encode(Str(text, w, payload));
            ReadString(e + rest, if text then 3 else 2) == Ok(payload, |e|)
  {
    hide ReadHead, EncodeHead, Fits;
    var major := if text then 3 else 2;
    var head := EncodeHead(major, w, |payload|);
    Reassociate(head, payload, rest);
    HeadRoundTrip(major, w, |payload|, payload + rest);
    assert (head + (payload + rest))[|head|..|head| + |payload|] == payload;
  }

  // Every accepted string is such an encoding.
  lemma StringSound(s: seq<byte>, text: bool) returns (w: Width)
    requires ReadString(s, if text then 3 else 2).Ok?
    ensures var r := ReadString(s, if text then 3 else 2);
            Fits(w, |r.value|) && s[..r.used] == Encode(Str(text, w, r.value))
  {
    hide ReadHead, EncodeHead, Fits;
    w := HeadSound(s);
    SplitPrefix(s, ReadHead(s).used, ReadString(s, if text then 3 else 2).used);
  }

  // The count of a well-formed container is always accepted, and leaves its items next.
  lemma CountRoundTrip(i: Item, rest: seq<byte>)
    requires WellFormed(i) && (i.Array? || i.Map?)
    ensures var items := if i.Array? then i.items else i.entries;
            var r := ReadCount(Encode(i) + rest, if i.Array? then 4 else 5, if i.Array? then 1 else 2);
            && r == Ok(if i.Array? then |items| else |items| / 2, 1 + Bytes(i.w))
            && (Encode(i) + rest)[r.used..] == EncodeAll(items) + rest
  {
    hide ReadHead, EncodeHead, Fits;
    var items := if i.Array? then i.items else i.entries;
    var major, n := if i.Array? then 4 else 5, if i.Array? then |items| else |items| / 2;
    var head := EncodeHead(major, i.w, n);
    Reassociate(head, EncodeAll(items), rest);
    HeadRoundTrip(major, i.w, n, EncodeAll(items) + rest);
    assert (head + (EncodeAll(items) + rest))[|head|..] == EncodeAll(items) + rest;
  }

  // Every accepted count was so encoded, and leaves room for that many items.
  lemma CountSound(s: seq<byte>, major: int, per: nat) returns (w: Width)
    requires 0 <= major < 8 && per > 0 && ReadCount(s, major, per).Ok?
    ensures var r := ReadCount(s, major, per);
            && Fits(w, r.value) && s[..r.used] == EncodeHead(major, w, r.value)
            && r.value * per <= |s| - r.used
  {
    hide ReadHead, EncodeHead, Fits;
    w := HeadSound(s);
    var r := ReadCount(s, major, per);
    TimesFits(r.value, per, |s| - r.used);
  }

  lemma TimesFits(n: nat, per: nat, room: nat)
    requires per > 0 && n <= room / per
    ensures n * per <= room
  {
    assert room == per * (room / per) + room % per;
    assert n * per <= (room / per) * per;
  }

  // A key of any well-formed type is consumed whole, and only a text key yields its text.
  lemma KeyReadsItem(i: Item, rest: seq<byte>)
    requires WellFormed(i) && 1 + Height(i) <= 8
    ensures var r := ReadKey(Encode(i) + rest);
            r == Ok(if i.Str? && i.text then i.payload else [], |Encode(i)|)
  {
    hide ReadHead, Fits, Skip, ReadString;
    SkipsItem(i, rest, 1);
    FirstByte(i);
    assert (Encode(i) + rest)[0] == Encode(i)[0];
    if i.Str? && i.text { StringRoundTrip(true, i.payload, i.w, rest); }
  }

  lemma FirstByte(i: Item)
    requires WellFormed(i)
    ensures Encode(i)[0] / 32 == 3 <==> i.Str? && i.text
  {
  }

  // Whatever passes for a key is one item, and yields its text or nothing.
  lemma KeySound(s: seq<byte>) returns (i: Item)
    requires ReadKey(s).Ok?
    ensures var r := ReadKey(s);
            WellFormed(i) && Encode(i) == s[..r.used] && r.value == if i.Str? && i.text then i.payload else []
  {
    hide ReadHead, Fits, Skip, ReadString, Encode, WellFormed;
    if s[0] / 32 == 3 {
      var w := StringSound(s, true);
      i := Str(true, w, ReadString(s, 3).value);
      StrFits(true, w, ReadString(s, 3).value);
    } else {
      i := SkippedIsItem(s, 1);
      FirstByte(i);
      assert Encode(i)[0] == s[0];
    }
  }

  lemma StrFits(text: bool, w: Width, payload: seq<byte>)
    requires Fits(w, |payload|)
    ensures WellFormed(Str(text, w, payload))
  {
  }

  // ---- why something is refused ----------------------------------------------

  // By the low five bits of the first byte, and only then by the bytes that are missing.
  lemma HeadFaults(s: seq<byte>)
    ensures var r := ReadHead(s);
            if s == [] then r == Err(Truncated, 0)
            else if s[0] % 32 == 31 then r == Err(IndefiniteLength, 1)
            else if 28 <= s[0] % 32 then r == Err(ReservedInfo, 1)
            else r.Err? ==> r == Err(Truncated, |s|) && s[0] % 32 >= 24
  {
  }

  // A typed read faults as its head does, then on the major type, then on the argument.
  lemma TypedFaults(s: seq<byte>, major: int, per: nat)
    requires per > 0
    ensures var h := ReadHead(s);
            if h.Err? then
              && ReadInteger(s) == Err(h.fault, h.used) && ReadString(s, major) == Err(h.fault, h.used)
              && ReadCount(s, major, per) == Err(h.fault, h.used)
            else
              && (ReadInteger(s).Err? ==>
                    ReadInteger(s) == Err(if s[0] / 32 > 1 then WrongType else OutOfRange, h.used))
              && (ReadString(s, major).Err? ==>
                    ReadString(s, major) == Err(if s[0] / 32 != major then WrongType else LengthPastEnd, h.used))
              && (ReadCount(s, major, per).Err? ==>
                    ReadCount(s, major, per) == Err(if s[0] / 32 != major then WrongType
                                                    else if major == 5 then MapPastEnd else ArrayPastEnd, h.used))
  {
    hide BigEndian;
  }

  lemma NoBytes()
    ensures BigEndian([]) == 0
  {
  }

  lemma OneByteMore(s: seq<byte>, k: nat)
    requires 1 <= k < |s|
    ensures BigEndian(s[1..k + 1]) == 256 * BigEndian(s[1..k]) + s[k]
  {
    assert s[1..k + 1][..k - 1] == s[1..k];
  }

  // ---- the reader itself -----------------------------------------------------

  class Reader {
    const data: seq<byte>
    var p: nat

    ghost predicate Valid() reads this { p <= |data| }

    ghost function Rest(): seq<byte>
      reads this
      requires Valid()
    {
      data[p..]
    }

    constructor (d: seq<byte>)
      ensures Valid() && data == d && p == 0
    {
      data, p := d, 0;
    }

    method NextByte() returns (b: Option<byte>)
      requires Valid()
      modifies this
      ensures Valid()
      ensures b == if old(Rest()) == [] then None else Some(old(Rest())[0])
      ensures p == old(p) + if b.Some? then 1 else 0
    {
      if p >= |data| { return None; }
      b := Some(data[p]);
      p := p + 1;
    }

    method NextHead() returns (r: Result<Head>)
      requires Valid()
      modifies this
      ensures Valid() && r == ReadHead(old(Rest())) && p == old(p) + r.used
    {
      hide BigEndian;
      ghost var s := Rest();
      var b := NextByte();
      if b.None? { return Err(Truncated, 0); }
      var major, info := b.value / 32, b.value % 32;
      if info < 24 { return Ok(Head(major, info), 1); }
      if info == 31 { return Err(IndefiniteLength, 1); }
      if info > 27 { return Err(ReservedInfo, 1); }
      var n, i := Extra(info), 0;
      var arg: nat := 0;
      NoBytes();
      assert s[1..1] == [];
      while i < n
        invariant 0 <= i <= n && Valid() && p == old(p) + 1 + i
        invariant arg == BigEndian(s[1..1 + i])
      {
        b := NextByte();
        if b.None? { return Err(Truncated, 1 + i); }
        OneByteMore(s, 1 + i);
        arg := 256 * arg + b.value;
        i := i + 1;
      }
      r := Ok(Head(major, arg), 1 + n);
    }

    method TakeBytes(n: nat) returns (r: Option<seq<byte>>)
      requires Valid()
      modifies this
      ensures Valid()
      ensures r == if n > |old(Rest())| then None else Some(old(Rest())[..n])
      ensures p == old(p) + if r.Some? then n else 0
    {
      if n > |data| - p { return None; }
      assert data[p..p + n] == Rest()[..n];
      r := Some(data[p..p + n]);
      p := p + n;
    }

    method SkipItem(depth: int) returns (fault: Option<Fault>)
      requires Valid()
      modifies this
      ensures Valid() && p == old(p) + Skip(old(Rest()), depth).used
      ensures fault == Skip(old(Rest()), depth).fault
      decreases |data| - p, 0
    {
      hide ReadHead;
      if depth > MAX_DEPTH { return Some(TooDeep); }
      var h := NextHead();
      if h.Err? { return Some(h.fault); }
      var major, arg, left := h.value.major, h.value.arg, |data| - p;
      assert Rest() == old(Rest())[h.used..];
      if major == 2 || major == 3 {
        var v := TakeBytes(arg);
        return if v.None? then Some(LengthPastEnd) else None;
      } else if major == 4 {
        if arg > left { return Some(ArrayPastEnd); }
        fault := SkipItems(arg, depth + 1);
      } else if major == 5 {
        if arg > left / 2 { return Some(MapPastEnd); }
        fault := SkipItems(2 * arg, depth + 1);
      } else if major == 6 {
        fault := SkipItem(depth + 1);
      } else {
        return None;
      }
    }

    // The loop of the array and map cases; a map runs it over keys and values in turn.
    method SkipItems(n: nat, depth: int) returns (fault: Option<Fault>)
      requires Valid()
      modifies this
      ensures Valid() && p == old(p) + SkipMany(old(Rest()), n, depth).used
      ensures fault == SkipMany(old(Rest()), n, depth).fault
      decreases |data| - p, 1
    {
      hide Skip;
      var i := 0;
      while i < n
        invariant 0 <= i <= n && Valid() && old(p) <= p
        invariant var all, todo := SkipMany(old(Rest()), n, depth), SkipMany(Rest(), n - i, depth);
                  all.fault == todo.fault && all.used == p - old(p) + todo.used
      {
        ghost var s := Rest();
        fault := SkipItem(depth);
        if fault.Some? { return; }
        assert Rest() == s[Skip(s, depth).used..];
        i := i + 1;
      }
      fault := None;
    }

    method NextString(major: int) returns (r: Result<seq<byte>>)
      requires Valid()
      modifies this
      ensures Valid() && r == ReadString(old(Rest()), major) && p == old(p) + r.used
    {
      hide ReadHead;
      var h := NextHead();
      if h.Err? { return Err(h.fault, h.used); }
      if h.value.major != major { return Err(WrongType, h.used); }
      assert Rest() == old(Rest())[h.used..];
      var v := TakeBytes(h.value.arg);
      if v.None? { return Err(LengthPastEnd, h.used); }
      assert v.value == old(Rest())[h.used..h.used + h.value.arg];
      r := Ok(v.value, h.used + h.value.arg);
    }

    method NextInteger() returns (r: Result<int>)
      requires Valid()
      modifies this
      ensures Valid() && r == ReadInteger(old(Rest())) && p == old(p) + r.used
    {
      hide ReadHead;
      var h := NextHead();
      if h.Err? { return Err(h.fault, h.used); }
      if h.value.major != 0 && h.value.major != 1 { return Err(WrongType, h.used); }
      if h.value.arg > INT64_MAX { return Err(OutOfRange, h.used); }
      r := Ok(if h.value.major == 0 then h.value.arg else -1 - h.value.arg, h.used);
    }

    method NextCount(major: int, per: nat) returns (r: Result<nat>)
      requires Valid() && per > 0
      modifies this
      ensures Valid() && r == ReadCount(old(Rest()), major, per) && p == old(p) + r.used
    {
      hide ReadHead;
      var h := NextHead();
      if h.Err? { return Err(h.fault, h.used); }
      if h.value.major != major { return Err(WrongType, h.used); }
      if h.value.arg > (|data| - p) / per { return Err(if major == 5 then MapPastEnd else ArrayPastEnd, h.used); }
      r := Ok(h.value.arg, h.used);
    }

    method NextKey() returns (r: Result<seq<byte>>)
      requires Valid()
      modifies this
      ensures Valid() && r == ReadKey(old(Rest())) && p == old(p) + r.used
    {
      if p >= |data| { return Err(Truncated, 0); }
      if data[p] / 32 == 3 { r := NextString(3); return; }
      var start := p;
      var fault := SkipItem(1);
      r := if fault.Some? then Err(fault.value, p - start) else Ok([], p - start);
    }
  }
}
