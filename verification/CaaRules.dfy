/** When CAA allows a name (sections 3 and 4 of RFC 8659), said of the names above it, what the
    resolver answers for them and the octets of the property values. */
module CaaRules {
  import opened Text
  import opened Dns
  import opened Names
  import opened DnsAnswers
  import opened DnsRules
  import opened Caa

  ghost function Word(s: string): Bytes { seq(|s|, i requires 0 <= i < |s| => s[i] as int % 256) }

  lemma Tags()
    ensures ISSUE == Word("issue") && ISSUEWILD == Word("issuewild") && IODEF == Word("iodef")
  {
  }

  // ---- a property value ------------------------------------------------------

  ghost predicate Blanks(s: Bytes) { forall b | b in s :: b == 32 || b == 9 }

  // Blanks, the issuer's name, blanks, and parameters behind a semicolon.
  ghost predicate Padded(value: Bytes, d: Bytes, before: Bytes, after: Bytes, parameters: Bytes)
  {
    && value == before + d + after + parameters && Blanks(before) && Blanks(after)
    && d != [] && !Blanks([d[0]]) && !Blanks([d[|d| - 1]]) && 59 !in d
    && (parameters == [] || parameters[0] == 59)
  }

  ghost predicate NamesIssuer(value: Bytes, issuer: Bytes)
  {
    exists d, before, after, parameters :: Padded(value, d, before, after, parameters) && SameText(d, issuer)
  }

  lemma NamesExactly(value: Bytes, issuer: Bytes)
    ensures NamesIssuer(value, issuer) <==> IssuerDomain(value) != [] && IssuerDomain(value) == LowerBytes(issuer)
  {
    hide TrimLeft, TrimRight, LowerBytes, IndexOf, SameText, IssuerDomain;
    if d, before, after, parameters :| Padded(value, d, before, after, parameters) && SameText(d, issuer) {
      PaddedDomain(value, d, before, after, parameters);
      FoldMeans(d, issuer);
    }
    if IssuerDomain(value) != [] && IssuerDomain(value) == LowerBytes(issuer) {
      var d, before, after, parameters := Unpadded(value);
      PaddedDomain(value, d, before, after, parameters);
      FoldMeans(d, issuer);
    }
  }

  lemma PaddedDomain(value: Bytes, d: Bytes, before: Bytes, after: Bytes, parameters: Bytes)
    requires Padded(value, d, before, after, parameters)
    ensures IssuerDomain(value) == LowerBytes(d) != []
  {
    hide IssuerDomain, LowerBytes;
    assert d[0] in [d[0]] && d[|d| - 1] in [d[|d| - 1]];
    IssuerDomainExact(before, d, after, parameters);
    assert |LowerBytes(d)| == |d|;
  }

  // Every value that names somebody is made up like that.
  lemma Unpadded(value: Bytes) returns (d: Bytes, before: Bytes, after: Bytes, parameters: Bytes)
    requires IssuerDomain(value) != []
    ensures Padded(value, d, before, after, parameters)
  {
    hide TrimLeft, TrimRight, LowerBytes, IndexOf, Blanks;
    var n := IndexOf(value, SEMICOLON);
    parameters := value[n..];
    assert |LowerBytes(TrimRight(TrimLeft(value[..n])))| == |TrimRight(TrimLeft(value[..n]))|;
    before, d, after := TrimmedOff(value[..n]);
    assert value == value[..n] + parameters;
    forall i | 0 <= i < |d| ensures d[i] != 59 { assert d[i] == value[..n][|before| + i]; }
  }

  lemma TrimmedOff(head: Bytes) returns (before: Bytes, d: Bytes, after: Bytes)
    requires TrimRight(TrimLeft(head)) != []
    ensures head == before + d + after && d == TrimRight(TrimLeft(head)) && Blanks(before) && Blanks(after)
    ensures !Blanks([d[0]]) && !Blanks([d[|d| - 1]])
  {
    hide TrimLeft, TrimRight;
    var left := TrimLeft(head);
    d := TrimRight(left);
    before, after := head[..|head| - |left|], left[|d|..];
    assert d == left[..|d|] && left == d + after && head == before + left;
    forall i | 0 <= i < |before| ensures Blank(before[i]) { assert before[i] == head[i]; }
    forall i | 0 <= i < |after| ensures Blank(after[i]) { assert after[i] == left[|d| + i]; }
    assert left[0] == d[0] && d[0] in [d[0]] && d[|d| - 1] in [d[|d| - 1]];
  }

  // ---- a record set ----------------------------------------------------------

  // The property that applies: issuewild for a wildcard when there is one, issue otherwise.
  ghost function Applies(recs: seq<CaaRecord>, wild: bool): Bytes
  {
    if wild && exists r | r in recs :: r.tag == Word("issuewild") then Word("issuewild") else Word("issue")
  }

  ghost predicate Allows(recs: seq<CaaRecord>, wild: bool, issuer: Bytes)
  {
    && (forall r | r in recs && r.critical :: r.tag in {Word("issue"), Word("issuewild"), Word("iodef")})
    && var tag := Applies(recs, wild);
       (forall r | r in recs :: r.tag != tag) || exists r | r in recs :: r.tag == tag && NamesIssuer(r.value, issuer)
  }

  lemma AllowsExactly(recs: seq<CaaRecord>, wild: bool, issuer: Bytes)
    ensures Permits(recs, wild, LowerBytes(issuer)) <==> Allows(recs, wild, issuer)
  {
    hide IssuerDomain, NamesIssuer, Word, LowerBytes;
    Tags();
    forall r | r in recs
      ensures NamesIssuer(r.value, issuer) <==>
                IssuerDomain(r.value) != [] && IssuerDomain(r.value) == LowerBytes(issuer)
    {
      NamesExactly(r.value, issuer);
    }
  }

  // ---- the climb -------------------------------------------------------------

  ghost predicate Wildcard(identifier: Bytes) { |identifier| >= 2 && identifier[0] == 42 && identifier[1] == 46 }

  ghost function Bare(identifier: Bytes): Bytes { if Wildcard(identifier) then identifier[2..] else identifier }

  // The name itself, or what is left of it behind one of its dots.
  ghost predicate Covers(identifier: Bytes, t: Bytes)
  {
    t != [] && (t == Bare(identifier) || BehindDot(Bare(identifier), t))
  }

  // The resolver's word on a name: a failed lookup is tried once more.
  ghost predicate Says(ask: Resolver, t: Bytes, a: Lookup)
  {
    a == if ask(t, 0).Failed? then ask(t, 1) else ask(t, 0)
  }

  // The longest name with anything but a clean "none".
  ghost predicate Nearest(ask: Resolver, identifier: Bytes, t: Bytes)
  {
    && Covers(identifier, t) && !Says(ask, t, Empty)
    && forall u | Covers(identifier, u) && |u| > |t| :: Says(ask, u, Empty)
  }

  // Issuance is allowed if and only if no name above has records, or the nearest one that has
  // anything to say has records that allow it.
  lemma AllowedExactly(ask: Resolver, identifier: Bytes, issuer: Bytes)
    ensures Policy(ask, identifier, issuer) <==>
              || (forall t | Covers(identifier, t) :: Says(ask, t, Empty))
              || (exists t, recs :: && Nearest(ask, identifier, t) && Says(ask, t, Records(recs))
                                    && Allows(recs, Wildcard(identifier), issuer))
  {
    hide Ancestors, Permits, Allows, BehindDot, LowerBytes;
    var names := Ancestors(Base(identifier));
    var n := EmptyRun(ask, names);
    AncestorsExact(Base(identifier));
    assert forall t :: t in names <==> Covers(identifier, t);
    if n == |names| {
      forall t | Covers(identifier, t) ensures Says(ask, t, Empty) {
        var i :| 0 <= i < |names| && names[i] == t;
        assert Answer(ask, names[i]).Empty?;
      }
      return;
    }
    var t := names[n];
    NearestIs(ask, identifier, n);
    forall u, recs | Nearest(ask, identifier, u) && Says(ask, u, Records(recs))
      ensures Answer(ask, t) == Records(recs)
    {
      assert u == t;
    }
    assert Nearest(ask, identifier, t);
    if Answer(ask, t).Records? {
      AllowsExactly(Answer(ask, t).recs, Wildcard(identifier), issuer);
      assert Says(ask, t, Records(Answer(ask, t).recs));
    }
  }

  lemma NearestIs(ask: Resolver, identifier: Bytes, n: nat)
    requires var names := Ancestors(Base(identifier)); n == EmptyRun(ask, names) && n < |names|
    ensures var t := Ancestors(Base(identifier))[n];
            Covers(identifier, t) && !Says(ask, t, Empty) && forall u :: Nearest(ask, identifier, u) <==> u == t
  {
    hide Ancestors, BehindDot;
    var names := Ancestors(Base(identifier));
    AncestorsExact(Base(identifier));
    assert forall u :: u in names <==> Covers(identifier, u);
    var t := names[n];
    forall u | Covers(identifier, u) && |u| > |t| ensures Says(ask, u, Empty) {
      var i :| 0 <= i < |names| && names[i] == u;
      assert i < n;
    }
    forall u | Nearest(ask, identifier, u) ensures u == t {
      var i :| 0 <= i < |names| && names[i] == u;
      assert n <= i;
      assert n < i ==> |t| > |u|;
    }
  }
}
