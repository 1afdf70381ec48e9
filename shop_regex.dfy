/** The shop-domain check of the OAuth start: the pattern
    `^[a-z0-9][a-z0-9\-]*[a-z0-9]\.` followed by the configured domain,
    matched case-insensitively. The domain is spliced into the pattern as
    it is, so each `.` in it is the any-character wildcard.

    `Matches` gives the meaning of such a pattern (one or more atoms, some
    starred, anchored at both ends); `ShopShapeOk` is a direct matcher for
    the shop pattern, `ShopShapeIsRegex` proves the two agree, and
    `ValidShop`, the check the handler runs, carries that agreement as its
    contract. */
module ShopRegex {

  /** The case folding of a case-insensitive, non-Unicode JavaScript pattern,
      restricted to ASCII letters. */
  function Fold(c: char): (f: char) {
    if 'A' <= c <= 'Z' then (c as int + 32) as char else c
  }

  /** What `[a-z0-9]` accepts under the `i` flag. */
  predicate IsAlnum(c: char) {
    'a' <= c <= 'z' || 'A' <= c <= 'Z' || '0' <= c <= '9'
  }

  /** What `[a-z0-9\-]` accepts under the `i` flag. */
  predicate IsAlnumOrDash(c: char) {
    IsAlnum(c) || c == '-'
  }

  /** The characters `.` does not match (no `s` flag). */
  predicate IsLineTerminator(c: char) {
    c == '\n' || c == '\r' || c == '\U{2028}' || c == '\U{2029}'
  }

  datatype CharClass = Alnum | AlnumOrDash | Literal(c: char) | AnyButLineTerminator

  predicate InClass(k: CharClass, c: char) {
    match k
    case Alnum => IsAlnum(c)
    case AlnumOrDash => IsAlnumOrDash(c)
    case Literal(d) => Fold(c) == Fold(d)
    case AnyButLineTerminator => !IsLineTerminator(c)
  }

  /** An atom, matched once or any number of times (`*`). */
  datatype Term = Once(k: CharClass) | Star(k: CharClass)

  /** The whole of `s` matches the pattern `p` (`^p$`). */
  predicate Matches(p: seq<Term>, s: string)
    decreases |p|, |s|
  {
    if |p| == 0 then |s| == 0
    else match p[0]
      case Once(k) => |s| > 0 && InClass(k, s[0]) && Matches(p[1..], s[1..])
      case Star(k) => Matches(p[1..], s) || (|s| > 0 && InClass(k, s[0]) && Matches(p, s[1..]))
  }

  /** A character of the domain as it stands in the pattern. */
  function DomainTerm(d: char): (t: Term) {
    if d == '.' then Once(AnyButLineTerminator) else Once(Literal(d))
  }

  function DomainTerms(domain: string): (ts: seq<Term>)
    ensures |ts| == |domain|
    ensures forall j :: 0 <= j < |domain| ==> ts[j] == DomainTerm(domain[j])
  {
    seq(|domain|, j requires 0 <= j < |domain| => DomainTerm(domain[j]))
  }

  /** The pattern built from `myShopifyDomain`: the label part, whose middle
      class is the only starred one, a literal `.`, then the domain's
      characters, each `.` among them the wildcard. */
  function ShopPattern(domain: string): (p: seq<Term>)
    ensures |p| == 4 + |domain|
    ensures p[..4] == [Once(Alnum), Star(AlnumOrDash), Once(Alnum), Once(Literal('.'))]
    ensures forall j :: 0 <= j < |domain| ==>
      p[4 + j] == if domain[j] == '.' then Once(AnyButLineTerminator) else Once(Literal(domain[j]))
    ensures AllOnce(p[2..])
  {
    [Once(Alnum), Star(AlnumOrDash), Once(Alnum), Once(Literal('.'))] + DomainTerms(domain)
  }

  predicate DomainCharMatches(d: char, c: char) {
    if d == '.' then !IsLineTerminator(c) else Fold(c) == Fold(d)
  }

  /** What the label part of the pattern accepts: at least two characters,
      a letter or digit first and last, letters, digits and `-` between. */
  predicate LabelOk(l: string) {
    && |l| >= 2
    && IsAlnum(l[0])
    && IsAlnum(l[|l| - 1])
    && forall i :: 0 < i < |l| - 1 ==> IsAlnumOrDash(l[i])
  }

  /** What the spliced-in domain accepts, character by character. */
  predicate DomainPartOk(domain: string, t: string) {
    |t| == |domain| && forall j :: 0 <= j < |domain| ==> DomainCharMatches(domain[j], t[j])
  }

  /** The shop check written out: the last `|domain|` characters match the
      domain, the character before them is `.`, and all before that is a label. */
  predicate ShopShapeOk(shop: string, domain: string) {
    var dot := |shop| - |domain| - 1;
    && dot >= 0
    && shop[dot] == '.'
    && LabelOk(shop[..dot])
    && DomainPartOk(domain, shop[dot + 1..])
  }

  predicate AllOnce(p: seq<Term>) {
    forall i :: 0 <= i < |p| ==> p[i].Once?
  }

  /** A pattern without stars matches exactly the strings of its length
      whose characters are in the corresponding classes. */
  lemma {:induction false} FixedMatch(p: seq<Term>, s: string)
    requires AllOnce(p)
    ensures Matches(p, s) <==> |s| == |p| && forall i :: 0 <= i < |p| ==> InClass(p[i].k, s[i])
    decreases |p|
  {
    if |p| > 0 && |s| > 0 {
      FixedMatch(p[1..], s[1..]);
      if |s| == |p| && InClass(p[0].k, s[0]) && Matches(p[1..], s[1..]) {
        forall i | 0 <= i < |p| ensures InClass(p[i].k, s[i]) {
          if i > 0 {
            assert p[1..][i - 1] == p[i] && s[1..][i - 1] == s[i];
          }
        }
      }
      if |s| == |p| && (forall i :: 0 <= i < |p| ==> InClass(p[i].k, s[i])) {
        forall i | 0 <= i < |p| - 1 ensures InClass(p[1..][i].k, s[1..][i]) {
          assert p[1..][i] == p[i + 1] && s[1..][i] == s[i + 1];
        }
      }
    }
  }

  /** The first `n` characters are in a class iff the first one is and the
      first `n - 1` of the tail are. */
  lemma PrefixInClass(k: CharClass, s: string, n: nat)
    requires 0 < n <= |s|
    ensures (forall i :: 0 <= i < n ==> InClass(k, s[i])) <==>
      InClass(k, s[0]) && (forall i :: 0 <= i < n - 1 ==> InClass(k, s[1..][i]))
  {
    if InClass(k, s[0]) && (forall i :: 0 <= i < n - 1 ==> InClass(k, s[1..][i])) {
      forall i | 0 <= i < n ensures InClass(k, s[i]) {
        if i > 0 { assert s[1..][i - 1] == s[i]; }
      }
    }
    if forall i :: 0 <= i < n ==> InClass(k, s[i]) {
      forall i | 0 <= i < n - 1 ensures InClass(k, s[1..][i]) {
        assert s[1..][i] == s[i + 1];
      }
    }
  }

  /** A starred class before a star-free rest: the rest consumes the last
      `|rest|` characters and the star everything before them. */
  lemma {:induction false} StarMatch(k: CharClass, rest: seq<Term>, s: string)
    requires AllOnce(rest)
    ensures Matches([Star(k)] + rest, s) <==>
      && |s| >= |rest|
      && (forall i :: 0 <= i < |s| - |rest| ==> InClass(k, s[i]))
      && Matches(rest, s[|s| - |rest|..])
    decreases |s|
  {
    var p := [Star(k)] + rest;
    assert p[0] == Star(k) && p[1..] == rest;
    FixedMatch(rest, s);
    assert s[0..] == s;
    if |s| > 0 {
      StarMatch(k, rest, s[1..]);
      if |s| > |rest| {
        assert s[1..][|s| - 1 - |rest|..] == s[|s| - |rest|..];
        PrefixInClass(k, s, |s| - |rest|);
      }
    }
  }

  /** The spliced-in domain matches exactly what `DomainPartOk` accepts. */
  lemma DomainTermsMatch(domain: string, t: string)
    ensures AllOnce(DomainTerms(domain))
    ensures Matches(DomainTerms(domain), t) <==> DomainPartOk(domain, t)
  {
    var ts := DomainTerms(domain);
    FixedMatch(ts, t);
    if |t| == |domain| {
      forall j | 0 <= j < |domain| ensures InClass(ts[j].k, t[j]) == DomainCharMatches(domain[j], t[j]) {
      }
    }
  }

  /** The pattern after the starred class: last label character, `.`, domain. */
  function Tail(domain: string): (t: seq<Term>) {
    [Once(Alnum), Once(Literal('.'))] + DomainTerms(domain)
  }

  lemma TailMatch(domain: string, u: string)
    ensures AllOnce(Tail(domain))
    ensures Matches(Tail(domain), u) <==>
      |u| >= 2 && IsAlnum(u[0]) && u[1] == '.' && DomainPartOk(domain, u[2..])
  {
    var t := Tail(domain);
    DomainTermsMatch(domain, if |u| >= 2 then u[2..] else []);
    assert t[0] == Once(Alnum) && t[1..][0] == Once(Literal('.'));
    assert t[1..][1..] == DomainTerms(domain);
    assert forall i :: 2 <= i < |t| ==> t[i] == DomainTerms(domain)[i - 2];
    if |u| >= 2 {
      assert u[1..][0] == u[1] && u[1..][1..] == u[2..];
    }
  }

  /** The direct matcher accepts exactly the strings the pattern matches. */
  lemma {:induction false} ShopShapeIsRegex(shop: string, domain: string)
    ensures ShopShapeOk(shop, domain) == Matches(ShopPattern(domain), shop)
  {
    var p := ShopPattern(domain);
    var tail := Tail(domain);
    assert p[0] == Once(Alnum);
    assert p[1..] == [Star(AlnumOrDash)] + tail;
    TailMatch(domain, []);
    if |shop| == 0 {
      return;
    }
    var s := shop[1..];
    StarMatch(AlnumOrDash, tail, s);
    if |s| < |tail| {
      return;
    }
    var dot := |shop| - |domain| - 1;
    var u := s[|s| - |tail|..];
    TailMatch(domain, u);
    assert u == shop[dot - 1..];
    assert u[0] == shop[dot - 1] && u[1] == shop[dot] && u[2..] == shop[dot + 1..];
    var l := shop[..dot];
    var labelBody := forall i :: 0 <= i < |s| - |tail| ==> InClass(AlnumOrDash, s[i]);
    assert labelBody <==> forall i :: 0 < i < |l| - 1 ==> IsAlnumOrDash(l[i]) by {
      if labelBody {
        forall i | 0 < i < |l| - 1 ensures IsAlnumOrDash(l[i]) {
          assert l[i] == s[i - 1];
        }
      }
      if forall i :: 0 < i < |l| - 1 ==> IsAlnumOrDash(l[i]) {
        forall i | 0 <= i < |s| - |tail| ensures InClass(AlnumOrDash, s[i]) {
          assert s[i] == l[i + 1];
        }
      }
    }
    assert l[0] == shop[0] && l[|l| - 1] == shop[dot - 1];
  }

  /** `shopRegex.test(shop)`: computed by the direct matcher, and accepting
      exactly what the pattern built from the domain matches. */
  function ValidShop(shop: string, domain: string): (valid: bool)
    ensures valid <==> Matches(ShopPattern(domain), shop)
  {
    ShopShapeIsRegex(shop, domain);
    ShopShapeOk(shop, domain)
  }

  /** A label of one character is too short, whatever the domain. */
  lemma SingleCharLabelRejected(c: char, domain: string)
    ensures !Matches(ShopPattern(domain), [c] + "." + domain)
  {
    ShopShapeIsRegex([c] + "." + domain, domain);
  }

  /** Every label of at least two characters, letters, digits and inner
      dashes, is accepted in front of the domain itself. */
  lemma AcceptsLabelDotDomain(shopLabel: string, domain: string)
    requires LabelOk(shopLabel)
    ensures Matches(ShopPattern(domain), shopLabel + "." + domain)
  {
    var shop := shopLabel + "." + domain;
    var dot := |shop| - |domain| - 1;
    assert shop[..dot] == shopLabel && shop[dot] == '.' && shop[dot + 1..] == domain;
    ShopShapeIsRegex(shop, domain);
  }

  /** ASCII lower case of a string. */
  function Lower(s: string): (t: string)
    ensures |t| == |s|
    ensures forall i :: 0 <= i < |s| ==> t[i] == Fold(s[i])
  {
    seq(|s|, i requires 0 <= i < |s| => Fold(s[i]))
  }

  lemma LabelIgnoresCase(l: string)
    ensures LabelOk(Lower(l)) == LabelOk(l)
  {
  }

  lemma DomainPartIgnoresCase(domain: string, t: string)
    ensures DomainPartOk(domain, Lower(t)) == DomainPartOk(domain, t)
    ensures DomainPartOk(Lower(domain), t) == DomainPartOk(domain, t)
  {
  }

  /** Matching ignores the case of the shop and of the domain. */
  lemma RegexIgnoresCase(shop: string, domain: string)
    ensures Matches(ShopPattern(domain), Lower(shop)) == Matches(ShopPattern(domain), shop)
    ensures Matches(ShopPattern(Lower(domain)), shop) == Matches(ShopPattern(domain), shop)
  {
    ShopShapeIsRegex(shop, domain);
    ShopShapeIsRegex(Lower(shop), domain);
    ShopShapeIsRegex(shop, Lower(domain));
    var dot := |shop| - |domain| - 1;
    if dot >= 0 {
      assert Lower(shop)[..dot] == Lower(shop[..dot]);
      assert Lower(shop)[dot + 1..] == Lower(shop[dot + 1..]);
      LabelIgnoresCase(shop[..dot]);
      DomainPartIgnoresCase(domain, shop[dot + 1..]);
    }
  }

  /** An ordinary shop of the default domain is accepted. */
  lemma AcceptsDefaultDomainShop()
    ensures Matches(ShopPattern("myshopify.com"), "test-shop.myshopify.com")
  {
    assert LabelOk("test-shop");
    assert "test-shop.myshopify.com" == "test-shop" + "." + "myshopify.com";
    AcceptsLabelDotDomain("test-shop", "myshopify.com");
  }

  /** The dot of the default domain is a wildcard. */
  lemma DefaultDomainDotIsWildcard()
    ensures Matches(ShopPattern("myshopify.com"), "test-shop.myshopifyXcom")
  {
    var shop := "test-shop.myshopifyXcom";
    assert shop[..9] == "test-shop" && shop[10..] == "myshopifyXcom";
    assert LabelOk("test-shop");
    assert DomainPartOk("myshopify.com", "myshopifyXcom");
    ShopShapeIsRegex(shop, "myshopify.com");
  }

  /** A single-character shop name is rejected for the default domain. */
  lemma RejectsSingleCharShop()
    ensures !Matches(ShopPattern("myshopify.com"), "a.myshopify.com")
  {
    assert "a.myshopify.com" == ['a'] + "." + "myshopify.com";
    SingleCharLabelRejected('a', "myshopify.com");
  }

  /** A name may not start with a dash, and nothing may follow the domain. */
  lemma RejectsMalformedShops()
    ensures !Matches(ShopPattern("myshopify.com"), "-shop.myshopify.com")
    ensures !Matches(ShopPattern("myshopify.com"), "shop.myshopify.com.evil.io")
  {
    ShopShapeIsRegex("-shop.myshopify.com", "myshopify.com");
    var evil := "shop.myshopify.com.evil.io";
    assert evil[12] != '.';
    ShopShapeIsRegex(evil, "myshopify.com");
  }
}
