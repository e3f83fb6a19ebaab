/** Certification authority authorization (sections 3 and 4 of RFC 8659): the tree climb of
    caa_allows, proved equal to a policy over the nearest non-empty record set. The resolver
    is a parameter: `ask(name, attempt)` is the outcome of one lookup. */
module Caa {
  import opened Text
  import opened Dns
  import opened Names
  import opened DnsAnswers

  type Resolver = (Bytes, nat) -> Lookup

  const SEMICOLON: byte := 59
  const ISSUE: Bytes := [105, 115, 115, 117, 101]
  const ISSUEWILD: Bytes := [105, 115, 115, 117, 101, 119, 105, 108, 100]
  const IODEF: Bytes := [105, 111, 100, 101, 102]

  // ---- the issuer domain of a property value ---------------------------------

  predicate Blank(b: byte) { b == 32 || b == 9 }

  function TrimLeft(s: Bytes): (t: Bytes)
    ensures |t| <= |s| && s[|s| - |t|..] == t
    ensures forall i | 0 <= i < |s| - |t| :: Blank(s[i])
    ensures t != [] ==> !Blank(t[0])
  {
    if s != [] && Blank(s[0]) then TrimLeft(s[1..]) else s
  }

  function TrimRight(s: Bytes): (t: Bytes)
    ensures |t| <= |s| && s[..|t|] == t
    ensures forall i | |t| <= i < |s| :: Blank(s[i])
    ensures t != [] ==> !Blank(t[|t| - 1])
  {
    if s != [] && Blank(s[|s| - 1]) then TrimRight(s[..|s| - 1]) else s
  }

  // caa_issuer_domain: the text before ';', trimmed and lowercased.
  function IssuerDomain(value: Bytes): Bytes
  {
    LowerBytes(TrimRight(TrimLeft(value[..IndexOf(value, SEMICOLON)])))
  }

  // Only blanks are trimmed, and all of them: any text without ';' padded with blanks and
  // followed by parameters names exactly that text.
  lemma IssuerDomainExact(before: Bytes, d: Bytes, after: Bytes, parameters: Bytes)
    requires (forall b | b in before :: Blank(b)) && (forall b | b in after :: Blank(b))
    requires SEMICOLON !in d && (d != [] ==> !Blank(d[0]) && !Blank(d[|d| - 1]))
    requires parameters == [] || parameters[0] == SEMICOLON
    ensures IssuerDomain(before + d + after + parameters) == LowerBytes(d)
  {
    hide TrimLeft, TrimRight, LowerBytes, IndexOf;
    var head := before + d + after;
    assert (head + parameters)[..|head|] == head;
    IndexUnique(head + parameters, SEMICOLON, |head|);
    TrimExact(before, d, after);
  }

  lemma TrimExact(before: Bytes, d: Bytes, after: Bytes)
    requires (forall b | b in before :: Blank(b)) && (forall b | b in after :: Blank(b))
    requires d != [] ==> !Blank(d[0]) && !Blank(d[|d| - 1])
    ensures TrimRight(TrimLeft(before + d + after)) == d
  {
    hide TrimLeft, TrimRight;
    assert before + d + after == before + (d + after);
    TrimLeftSkips(before, d + after);
    if d == [] {
      assert d + after == after + [];
      TrimLeftSkips(after, []);
    } else {
      NothingToTrim(d + after);
      TrimRightSkips(d, after);
      NothingToTrim(d);
    }
  }

  lemma NothingToTrim(s: Bytes)
    ensures s != [] && !Blank(s[0]) ==> TrimLeft(s) == s
    ensures s != [] && !Blank(s[|s| - 1]) ==> TrimRight(s) == s
  {
  }

  lemma {:induction false} TrimLeftSkips(before: Bytes, s: Bytes)
    requires forall b | b in before :: Blank(b)
    ensures TrimLeft(before + s) == TrimLeft(s)
  {
    if before == [] {
      assert before + s == s;
    } else {
      hide TrimLeft;
      assert before + s == [before[0]] + (before[1..] + s);
      BlankFirst(before[0], before[1..] + s);
      TrimLeftSkips(before[1..], s);
    }
  }

  lemma {:induction false} TrimRightSkips(s: Bytes, after: Bytes)
    requires forall b | b in after :: Blank(b)
    ensures TrimRight(s + after) == TrimRight(s)
  {
    if after == [] {
      assert s + after == s;
    } else {
      hide TrimRight;
      var n := |after| - 1;
      assert s + after == (s + after[..n]) + [after[n]];
      BlankLast(s + after[..n], after[n]);
      TrimRightSkips(s, after[..n]);
    }
  }

  lemma BlankFirst(b: byte, s: Bytes)
    requires Blank(b)
    ensures TrimLeft([b] + s) == TrimLeft(s)
  {
    assert ([b] + s)[1..] == s;
  }

  lemma BlankLast(s: Bytes, b: byte)
    requires Blank(b)
    ensures TrimRight(s + [b]) == TrimRight(s)
  {
    assert (s + [b])[..|s|] == s;
  }

  // ---- the policy ------------------------------------------------------------

  predicate Authorizes(c: CaaRecord, tag: Bytes, want: Bytes)
  {
    c.tag == tag && IssuerDomain(c.value) != [] && IssuerDomain(c.value) == want
  }

  predicate CriticalUnknown(c: CaaRecord)
  {
    c.critical && c.tag != ISSUE && c.tag != ISSUEWILD && c.tag != IODEF
  }

  ghost predicate HasTag(recs: seq<CaaRecord>, tag: Bytes)
  {
    exists c | c in recs :: c.tag == tag
  }

  ghost predicate NamesUs(recs: seq<CaaRecord>, tag: Bytes, want: Bytes)
  {
    exists c | c in recs :: Authorizes(c, tag, want)
  }

  // What one record set says.
  ghost predicate Permits(recs: seq<CaaRecord>, wild: bool, want: Bytes)
  {
    && (forall c | c in recs :: !CriticalUnknown(c))
    && if wild && HasTag(recs, ISSUEWILD) then NamesUs(recs, ISSUEWILD, want)
       else HasTag(recs, ISSUE) ==> NamesUs(recs, ISSUE, want)
  }

  // The order in which a resolver lists the records is immaterial, and so is repetition.
  lemma OrderIrrelevant(a: seq<CaaRecord>, b: seq<CaaRecord>, wild: bool, want: Bytes)
    requires forall c :: c in a <==> c in b
    ensures Permits(a, wild, want) == Permits(b, wild, want)
  {
  }

  // The names the climb visits, nearest first.
  function Ancestors(name: Bytes): (ns: seq<Bytes>)
    decreases |name|
  {
    if name == [] then []
    else
      var dot := IndexOf(name, DOT);
      [name] + if dot == |name| then [] else Ancestors(name[dot + 1..])
  }

  ghost predicate BehindDot(name: Bytes, t: Bytes)
  {
    exists k :: 0 <= k < |name| && name[k] == DOT && t == name[k + 1..]
  }

  // They are the name and every non-empty rest of it behind a dot, each shorter than the last.
  lemma AncestorsExact(name: Bytes)
    ensures forall t :: t in Ancestors(name) <==> t != [] && (t == name || BehindDot(name, t))
    ensures forall i, j | 0 <= i < j < |Ancestors(name)| :: |Ancestors(name)[i]| > |Ancestors(name)[j]|
  {
    hide Ancestors, BehindDot;
    forall t ensures t in Ancestors(name) <==> t != [] && (t == name || BehindDot(name, t)) {
      AncestorMeans(name, t);
    }
    AncestorsShrink(name);
  }

  lemma {:induction false} AncestorMeans(name: Bytes, t: Bytes)
    ensures t in Ancestors(name) <==> t != [] && (t == name || BehindDot(name, t))
    decreases |name|
  {
    hide Ancestors, IndexOf, BehindDot;
    if name == [] {
      NoAncestors();
      NoDot(name, t);
    } else {
      Climb(name);
      var dot := IndexOf(name, DOT);
      if dot < |name| {
        AncestorMeans(name[dot + 1..], t);
        NextDot(name, t);
      } else {
        NoDot(name, t);
      }
    }
  }

  lemma NoDot(name: Bytes, t: Bytes)
    requires IndexOf(name, DOT) == |name|
    ensures !BehindDot(name, t)
  {
    hide IndexOf;
    assert name[..|name|] == name;
  }

  lemma {:induction false} AncestorsShrink(name: Bytes)
    ensures forall t | t in Ancestors(name) :: |t| <= |name|
    ensures forall i, j | 0 <= i < j < |Ancestors(name)| :: |Ancestors(name)[i]| > |Ancestors(name)[j]|
    decreases |name|
  {
    hide Ancestors, IndexOf;
    if name == [] {
      NoAncestors();
    } else {
      Climb(name);
      var dot := IndexOf(name, DOT);
      if dot < |name| {
        var up, ns := name[dot + 1..], Ancestors(name);
        AncestorsShrink(up);
        forall i, j | 0 <= i < j < |ns| ensures |ns[i]| > |ns[j]| {
          assert ns[j] == Ancestors(up)[j - 1];
          if i > 0 { assert ns[i] == Ancestors(up)[i - 1]; }
        }
      }
    }
  }

  lemma NextDot(name: Bytes, t: Bytes)
    requires IndexOf(name, DOT) < |name|
    ensures var up := name[IndexOf(name, DOT) + 1..]; BehindDot(name, t) <==> t == up || BehindDot(up, t)
  {
    hide IndexOf;
    var dot := IndexOf(name, DOT);
    var up := name[dot + 1..];
    forall j | 0 <= j < dot ensures name[j] != DOT { assert name[..dot][j] == name[j]; }
    if k :| 0 <= k < |name| && name[k] == DOT && t == name[k + 1..] {
      if k > dot { assert up[k - dot - 1] == DOT && up[k - dot..] == t; }
    }
    if k :| 0 <= k < |up| && up[k] == DOT && t == up[k + 1..] {
      assert name[dot + 1 + k] == DOT && name[dot + 1 + k + 1..] == t;
    }
  }

  // A failed lookup is asked once more.
  function Answer(ask: Resolver, name: Bytes): Lookup
  {
    if ask(name, 0).Failed? then ask(name, 1) else ask(name, 0)
  }

  // How many names from the nearest one up answered that they have no records.
  ghost function EmptyRun(ask: Resolver, names: seq<Bytes>): (n: nat)
    ensures n <= |names|
    ensures forall i | 0 <= i < n :: Answer(ask, names[i]).Empty?
    ensures n < |names| ==> !Answer(ask, names[n]).Empty?
  {
    if names == [] || !Answer(ask, names[0]).Empty? then 0 else 1 + EmptyRun(ask, names[1..])
  }

  // The nearest record set decides; a name that cannot be resolved refuses; with no record
  // set anywhere issuance is unrestricted.
  ghost predicate Policy(ask: Resolver, identifier: Bytes, identity: Bytes)
  {
    var names := Ancestors(Base(identifier));
    var n := EmptyRun(ask, names);
    n == |names| ||
    (Answer(ask, names[n]).Records? &&
     Permits(Answer(ask, names[n]).recs, IsWild(identifier), LowerBytes(identity)))
  }

  ghost predicate AgreeOnNearest(ask: Resolver, other: Resolver, names: seq<Bytes>)
  {
    forall i | 0 <= i < |names| && i <= EmptyRun(ask, names) :: Answer(ask, names[i]) == Answer(other, names[i])
  }

  // Nothing behind the nearest decisive answer matters.
  lemma NearestDecides(ask: Resolver, other: Resolver, identifier: Bytes, identity: Bytes)
    requires AgreeOnNearest(ask, other, Ancestors(Base(identifier)))
    ensures Policy(ask, identifier, identity) == Policy(other, identifier, identity)
  {
  }

  datatype Refusal =
    | Unresolved(name: Bytes) | CriticalProperty(name: Bytes, tag: Bytes) | NotNamed(name: Bytes, wild: bool)

  // caa_allows.
  method CaaAllows(ask: Resolver, identifier: Bytes, identity: Bytes) returns (why: Option<Refusal>)
    ensures why.None? <==> Policy(ask, identifier, identity)
    ensures why.Some? ==>
              var names := Ancestors(Base(identifier));
              var n := EmptyRun(ask, names);
              && n < |names| && why.value.name == names[n]
              && (why.value.Unresolved? <==> ask(names[n], 0).Failed? && ask(names[n], 1).Failed?)
              && (why.value.CriticalProperty? ==>
                    exists c | c in Answer(ask, names[n]).recs :: CriticalUnknown(c) && c.tag == why.value.tag)
              && (why.value.NotNamed? ==>
                    && why.value.wild == IsWild(identifier)
                    && forall c | c in Answer(ask, names[n]).recs :: !CriticalUnknown(c))
  {
    hide Ancestors, Permits, Base, IsWild, LowerBytes;
    var wild, name, want := IsWild(identifier), Base(identifier), LowerBytes(identity);
    ghost var names, i := Ancestors(name), 0;
    while name != []
      invariant i <= |names| && Ancestors(name) == names[i..]
      invariant EmptyRun(ask, names) == i + EmptyRun(ask, names[i..])
      decreases |name|
    {
      Climb(name);
      assert names[i] == name && names[i..][1..] == names[i + 1..];
      var st := ask(name, 0);
      if st.Failed? { st := ask(name, 1); }
      if st.Failed? { return Some(Unresolved(name)); }
      if st.Records? {
        var refused := Evaluate(st.recs, wild, want);
        if refused.Some? {
          return Some(if refused.value.0 then CriticalProperty(name, refused.value.1) else NotNamed(name, wild));
        }
        return None;
      }
      i := i + 1;
      var dot := IndexOf(name, DOT);
      if dot == |name| { break; }
      name := name[dot + 1..];
    }
    assert names[i..] == [] by { if name == [] { NoAncestors(); } }
    why := None;
  }

  lemma Climb(name: Bytes)
    requires name != []
    ensures var dot := IndexOf(name, DOT);
            var up := if dot == |name| then [] else Ancestors(name[dot + 1..]);
            Ancestors(name) == [name] + up && Ancestors(name)[0] == name && Ancestors(name)[1..] == up
  {
    hide IndexOf;
    var dot := IndexOf(name, DOT);
    var up := if dot == |name| then [] else Ancestors(name[dot + 1..]);
    assert Ancestors(name) == [name] + up;
  }

  lemma NoAncestors()
    ensures Ancestors([]) == []
  {
  }

  // The loop over one record set: None when it permits, else whether a critical property
  // refused, and its tag.
  method Evaluate(recs: seq<CaaRecord>, wild: bool, want: Bytes) returns (refused: Option<(bool, Bytes)>)
    ensures refused.None? <==> Permits(recs, wild, want)
    ensures refused.Some? && refused.value.0 ==> exists c | c in recs :: CriticalUnknown(c) && c.tag == refused.value.1
    ensures refused.Some? && !refused.value.0 ==> forall c | c in recs :: !CriticalUnknown(c)
  {
    hide IssuerDomain;
    var haveIssue, allowIssue, haveWild, allowWild := false, false, false, false;
    for i := 0 to |recs|
      invariant forall c | c in recs[..i] :: !CriticalUnknown(c)
      invariant haveIssue == HasTag(recs[..i], ISSUE) && allowIssue == NamesUs(recs[..i], ISSUE, want)
      invariant haveWild == HasTag(recs[..i], ISSUEWILD) && allowWild == NamesUs(recs[..i], ISSUEWILD, want)
    {
      var r := recs[i];
      OneMore(recs, i, ISSUE, want);
      OneMore(recs, i, ISSUEWILD, want);
      assert forall c :: c in recs[..i + 1] <==> c in recs[..i] || c == r;
      if r.tag == ISSUE || r.tag == ISSUEWILD {
        var ok := IssuerDomain(r.value) != [] && IssuerDomain(r.value) == want;
        if r.tag == ISSUE { haveIssue, allowIssue := true, allowIssue || ok; }
        else { haveWild, allowWild := true, allowWild || ok; }
      } else if r.tag != IODEF && r.critical {
        assert r in recs && CriticalUnknown(r);
        return Some((true, r.tag));
      }
    }
    assert recs[..|recs|] == recs;
    if wild && haveWild { return if allowWild then None else Some((false, [])); }
    if haveIssue { return if allowIssue then None else Some((false, [])); }
    refused := None;
  }

  lemma OneMore(recs: seq<CaaRecord>, i: nat, tag: Bytes, want: Bytes)
    requires i < |recs|
    ensures HasTag(recs[..i + 1], tag) <==> HasTag(recs[..i], tag) || recs[i].tag == tag
    ensures NamesUs(recs[..i + 1], tag, want) <==> NamesUs(recs[..i], tag, want) || Authorizes(recs[i], tag, want)
  {
  }
}
