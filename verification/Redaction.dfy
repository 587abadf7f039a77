/** PII redaction: four patterns substituted in turn. */
module Redaction {

  /** The classes \w (for \b) and \d. */
  datatype Classes = Classes(word: char -> bool, digit: char -> bool)

  predicate IsUpper(c: char) { 'A' <= c <= 'Z' }

  predicate IsLetter(c: char) { IsUpper(c) || 'a' <= c <= 'z' }

  predicate IsAlnum(c: char) { IsLetter(c) || '0' <= c <= '9' }

  /** The digit class holds no bracket and no upper-case letter; nothing is asked of the word class. */
  ghost predicate Sound(cs: Classes) {
    forall c {:trigger cs.digit(c)} :: cs.digit(c) ==> !IsUpper(c) && c != '[' && c != ']'
  }

  datatype Kind = Email | Ssn | Card | Phone

  const ORDER: seq<Kind> := [Email, Ssn, Card, Phone]

  function Tag(k: Kind): string {
    match k
    case Email => "[EMAIL]"
    case Ssn => "[SSN]"
    case Card => "[CARD]"
    case Phone => "[PHONE]"
  }

  // ---- The pattern bodies, without their \b at both ends ----

  predicate LocalChar(c: char) { IsAlnum(c) || c in {'.', '_', '%', '+', '-'} }

  predicate DomainChar(c: char) { IsAlnum(c) || c == '.' || c == '-' }

  /** local part up to `at`, domain up to `dot`, then at least two letters. */
  predicate EmailParts(w: string, at: nat, dot: nat) {
    && 0 < at && at + 1 < dot && dot + 2 < |w|
    && w[at] == '@' && w[dot] == '.'
    && (forall k :: 0 <= k < at ==> LocalChar(w[k]))
    && (forall k :: at < k < dot ==> DomainChar(w[k]))
    && (forall k :: dot < k < |w| ==> IsLetter(w[k]))
  }

  predicate EmailBody(w: string) { exists at, dot :: 0 <= at < dot < |w| && EmailParts(w, at, dot) }

  datatype Piece = Digits(n: nat) | Sep(chars: set<char>, optional: bool)

  predicate Shaped(cs: Classes, pieces: seq<Piece>, w: string) {
    if pieces == [] then w == "" else
    match pieces[0]
    case Digits(n) => |w| >= n && (forall k :: 0 <= k < n ==> cs.digit(w[k])) && Shaped(cs, pieces[1..], w[n..])
    case Sep(chars, optional) =>
      || (w != "" && w[0] in chars && Shaped(cs, pieces[1..], w[1..]))
      || (optional && Shaped(cs, pieces[1..], w))
  }

  function Pieces(k: Kind): seq<Piece> {
    match k
    case Email => []
    case Ssn => [Digits(3), Sep({'-'}, false), Digits(2), Sep({'-'}, false), Digits(4)]
    case Card => [Digits(4), Sep({'-', ' '}, true), Digits(4), Sep({'-', ' '}, true), Digits(4),
      Sep({'-', ' '}, true), Digits(4)]
    case Phone => [Digits(3), Sep({'-', '.'}, true), Digits(3), Sep({'-', '.'}, true), Digits(4)]
  }

  predicate Body(cs: Classes, k: Kind, w: string) {
    if k.Email? then EmailBody(w) else Shaped(cs, Pieces(k), w)
  }

  // ---- The same bodies, character by character ----

  predicate Group(cs: Classes, w: string, n: nat) { |w| == n && forall k :: 0 <= k < n ==> cs.digit(w[k]) }

  predicate OneOf(w: string, chars: set<char>) { w == "" || (|w| == 1 && w[0] in chars) }

  lemma TakeGroup(cs: Classes, pieces: seq<Piece>, w: string) returns (a: string, v: string)
    requires pieces != [] && pieces[0].Digits? && Shaped(cs, pieces, w)
    ensures w == a + v && Group(cs, a, pieces[0].n) && Shaped(cs, pieces[1..], v)
  {
    a, v := w[..pieces[0].n], w[pieces[0].n..];
  }

  lemma PutGroup(cs: Classes, pieces: seq<Piece>, a: string, v: string)
    requires pieces != [] && pieces[0].Digits? && Group(cs, a, pieces[0].n) && Shaped(cs, pieces[1..], v)
    ensures Shaped(cs, pieces, a + v)
  {
    assert (a + v)[|a|..] == v;
  }

  lemma TakeSep(cs: Classes, pieces: seq<Piece>, w: string) returns (x: string, v: string)
    requires pieces != [] && pieces[0].Sep? && Shaped(cs, pieces, w)
    ensures w == x + v && OneOf(x, pieces[0].chars) && (!pieces[0].optional ==> x != "") && Shaped(cs, pieces[1..], v)
  {
    if w != "" && w[0] in pieces[0].chars && Shaped(cs, pieces[1..], w[1..]) {
      x, v := [w[0]], w[1..];
    } else {
      x, v := "", w;
    }
  }

  lemma PutSep(cs: Classes, pieces: seq<Piece>, x: string, v: string)
    requires pieces != [] && pieces[0].Sep? && OneOf(x, pieces[0].chars) && (!pieces[0].optional ==> x != "")
    requires Shaped(cs, pieces[1..], v)
    ensures Shaped(cs, pieces, x + v)
  {
    if x == "" {
      assert x + v == v;
    } else {
      assert (x + v)[1..] == v;
    }
  }

  /** An SSN: three, two and four digits between hyphens. */
  lemma SsnIs(cs: Classes, w: string)
    ensures Body(cs, Ssn, w) <==>
      |w| == 11 && Group(cs, w[..3], 3) && w[3] == '-' && Group(cs, w[4..6], 2) && w[6] == '-' && Group(cs, w[7..], 4)
  {
    var p := Pieces(Ssn);
    hide Shaped;
    if Body(cs, Ssn, w) {
      var a, v := TakeGroup(cs, p, w);
      var x, v' := TakeSep(cs, p[1..], v);
      var b, u := TakeGroup(cs, p[2..], v');
      var y, u' := TakeSep(cs, p[3..], u);
      var c, last := TakeGroup(cs, p[4..], u');
      NoPieces(cs, last);
      assert w == a + x + b + y + c;
    }
    if |w| == 11 && Group(cs, w[..3], 3) && w[3] == '-' && Group(cs, w[4..6], 2) && w[6] == '-'
       && Group(cs, w[7..], 4) {
      NoPieces(cs, "");
      PutGroup(cs, p[4..], w[7..], "");
      PutSep(cs, p[3..], "-", w[7..] + "");
      PutGroup(cs, p[2..], w[4..6], "-" + (w[7..] + ""));
      PutSep(cs, p[1..], "-", w[4..6] + ("-" + (w[7..] + "")));
      PutGroup(cs, p, w[..3], "-" + (w[4..6] + ("-" + (w[7..] + ""))));
      assert w == w[..3] + ("-" + (w[4..6] + ("-" + (w[7..] + ""))));
    }
  }

  lemma NoPieces(cs: Classes, w: string)
    ensures Shaped(cs, [], w) <==> w == ""
  {
  }

  /** A card number: four groups of four digits, each two with a hyphen, a space or nothing between them. */
  predicate CardParts(cs: Classes, w: string, a: string, x: string, b: string, y: string, c: string, z: string, d:
  string) {
    && w == a + (x + (b + (y + (c + (z + d)))))
    && Group(cs, a, 4) && Group(cs, b, 4) && Group(cs, c, 4) && Group(cs, d, 4)
    && OneOf(x, {'-', ' '}) && OneOf(y, {'-', ' '}) && OneOf(z, {'-', ' '})
  }

  lemma CardIs(cs: Classes, w: string)
    ensures Body(cs, Card, w) <==> exists a, x, b, y, c, z, d :: CardParts(cs, w, a, x, b, y, c, z, d)
  {
    var p := Pieces(Card);
    hide Shaped, Group, OneOf;
    if Body(cs, Card, w) {
      var a, w1 := TakeGroup(cs, p, w);
      var x, w2 := TakeSep(cs, p[1..], w1);
      var b, w3 := TakeGroup(cs, p[2..], w2);
      var y, w4 := TakeSep(cs, p[3..], w3);
      var c, w5 := TakeGroup(cs, p[4..], w4);
      var z, w6 := TakeSep(cs, p[5..], w5);
      var d, last := TakeGroup(cs, p[6..], w6);
      NoPieces(cs, last);
      assert CardParts(cs, w, a, x, b, y, c, z, d);
    }
    forall a, x, b, y, c, z, d | CardParts(cs, w, a, x, b, y, c, z, d)
      ensures Body(cs, Card, w)
    {
      NoPieces(cs, "");
      assert d + "" == d;
      PutGroup(cs, p[6..], d, "");
      PutSep(cs, p[5..], z, d);
      PutGroup(cs, p[4..], c, z + d);
      PutSep(cs, p[3..], y, c + (z + d));
      PutGroup(cs, p[2..], b, y + (c + (z + d)));
      PutSep(cs, p[1..], x, b + (y + (c + (z + d))));
      PutGroup(cs, p, a, x + (b + (y + (c + (z + d)))));
    }
  }

  /** A phone number: three, three and four digits, with a hyphen, a dot or nothing between them. */
  predicate PhoneParts(cs: Classes, w: string, a: string, x: string, b: string, y: string, c: string) {
    && w == a + (x + (b + (y + c)))
    && Group(cs, a, 3) && Group(cs, b, 3) && Group(cs, c, 4)
    && OneOf(x, {'-', '.'}) && OneOf(y, {'-', '.'})
  }

  lemma PhoneIs(cs: Classes, w: string)
    ensures Body(cs, Phone, w) <==> exists a, x, b, y, c :: PhoneParts(cs, w, a, x, b, y, c)
  {
    var p := Pieces(Phone);
    hide Shaped, Group, OneOf;
    if Body(cs, Phone, w) {
      var a, w1 := TakeGroup(cs, p, w);
      var x, w2 := TakeSep(cs, p[1..], w1);
      var b, w3 := TakeGroup(cs, p[2..], w2);
      var y, w4 := TakeSep(cs, p[3..], w3);
      var c, last := TakeGroup(cs, p[4..], w4);
      NoPieces(cs, last);
      assert PhoneParts(cs, w, a, x, b, y, c);
    }
    forall a, x, b, y, c | PhoneParts(cs, w, a, x, b, y, c)
      ensures Body(cs, Phone, w)
    {
      NoPieces(cs, "");
      assert c + "" == c;
      PutGroup(cs, p[4..], c, "");
      PutSep(cs, p[3..], y, c);
      PutGroup(cs, p[2..], b, y + c);
      PutSep(cs, p[1..], x, b + (y + c));
      PutGroup(cs, p, a, x + (b + (y + c)));
    }
  }

  /** An address: a name, "@", a host, "." and at least two letters; names and hosts are of these characters only. */
  predicate EmailText(w: string, name: string, host: string, top: string) {
    && w == name + ("@" + (host + ("." + top)))
    && name != "" && host != "" && |top| >= 2
    && (forall c :: c in name ==>
          'A' <= c <= 'Z' || 'a' <= c <= 'z' || '0' <= c <= '9' || c in {'.', '_', '%', '+', '-'})
    && (forall c :: c in host ==> 'A' <= c <= 'Z' || 'a' <= c <= 'z' || '0' <= c <= '9' || c in {'.', '-'})
    && (forall c :: c in top ==> 'A' <= c <= 'Z' || 'a' <= c <= 'z')
  }

  lemma EmailIs(cs: Classes, w: string)
    ensures Body(cs, Email, w) <==> exists name, host, top :: EmailText(w, name, host, top)
  {
    if Body(cs, Email, w) {
      var at, dot :| 0 <= at < dot < |w| && EmailParts(w, at, dot);
      var name, host, top := w[..at], w[at + 1..dot], w[dot + 1..];
      assert w == name + ("@" + (host + ("." + top)));
      assert EmailText(w, name, host, top);
    }
    forall name, host, top | EmailText(w, name, host, top)
      ensures Body(cs, Email, w)
    {
      EmailPlaces(w, name, host, top);
    }
  }

  lemma EmailPlaces(w: string, name: string, host: string, top: string)
    requires EmailText(w, name, host, top)
    ensures |name| + 1 + |host| < |w| && EmailParts(w, |name|, |name| + 1 + |host|)
  {
    var at, dot := |name|, |name| + 1 + |host|;
    forall k | 0 <= k < at ensures LocalChar(w[k]) { assert w[k] == name[k] && name[k] in name; }
    forall k | at < k < dot ensures DomainChar(w[k]) { assert w[k] == host[k - at - 1] && w[k] in host; }
    forall k | dot < k < |w| ensures IsLetter(w[k]) { assert w[k] == top[k - dot - 1] && w[k] in top; }
  }

  // ---- Matching and substitution ----

  predicate Boundary(cs: Classes, t: string, i: nat)
    requires i <= |t|
  {
    (i > 0 && cs.word(t[i - 1])) != (i < |t| && cs.word(t[i]))
  }

  predicate Match(cs: Classes, k: Kind, t: string, s: nat, e: nat) {
    s < e <= |t| && Boundary(cs, t, s) && Boundary(cs, t, e) && Body(cs, k, t[s..e])
  }

  /** Where letters and digits are word characters: a match is a body that ends where its word does, and begins where a
      word does, too, or right behind one if its first character is none (as an address may: "%a@b.co"). */
  lemma MatchIs(cs: Classes, k: Kind, t: string, s: nat, e: nat)
    requires forall c {:trigger cs.word(c)} :: cs.digit(c) || IsLetter(c) ==> cs.word(c)
    ensures Match(cs, k, t, s, e) <==>
      && s < e <= |t| && Body(cs, k, t[s..e])
      && (e < |t| ==> !cs.word(t[e]))
      && (if cs.word(t[s]) then s > 0 ==> !cs.word(t[s - 1]) else s > 0 && cs.word(t[s - 1]))
  {
    if s < e <= |t| && Body(cs, k, t[s..e]) {
      EndsInWord(cs, k, t[s..e]);
      assert t[s..e][e - s - 1] == t[e - 1];
    }
    hide Body;
  }

  lemma EndsInWord(cs: Classes, k: Kind, w: string)
    requires Body(cs, k, w) && w != ""
    ensures cs.digit(w[|w| - 1]) || IsLetter(w[|w| - 1])
  {
    hide Shaped;
    match k
    case Email => var at, dot :| 0 <= at < dot < |w| && EmailParts(w, at, dot);
    case Ssn => SsnIs(cs, w); assert w[7..][3] == w[10];
    case Card =>
      CardIs(cs, w);
      var a, x, b, y, c, z, d :| CardParts(cs, w, a, x, b, y, c, z, d);
      assert w[|w| - 1] == d[3];
    case Phone =>
      PhoneIs(cs, w);
      var a, x, b, y, c :| PhoneParts(cs, w, a, x, b, y, c);
      assert w[|w| - 1] == c[3];
  }

  predicate StartsAt(cs: Classes, k: Kind, t: string, s: nat) {
    exists e :: s < e <= |t| && Match(cs, k, t, s, e)
  }

  /** The longest match from s: greedy matching ends there, since a later end needs a later last dot (e-mail) and
      the digit shapes leave one length only. */
  function Longest(cs: Classes, k: Kind, t: string, s: nat, e: nat): (r: nat)
    requires s < e <= |t| && exists x :: s < x <= e && Match(cs, k, t, s, x)
    ensures s < r <= e && Match(cs, k, t, s, r)
    decreases e
  {
    if Match(cs, k, t, s, e) then e else Longest(cs, k, t, s, e - 1)
  }

  /** What substitution produces from position i on: the first match from the left is replaced, and scanning goes on
      behind it, always looking at the original text. */
  function SubFrom(cs: Classes, k: Kind, t: string, i: nat): string
    requires i <= |t|
    decreases |t| - i
  {
    if i == |t| then ""
    else if StartsAt(cs, k, t, i) then Tag(k) + SubFrom(cs, k, t, Longest(cs, k, t, i, |t|))
    else [t[i]] + SubFrom(cs, k, t, i + 1)
  }

  function Sub(cs: Classes, k: Kind, t: string): string { SubFrom(cs, k, t, 0) }

  ghost predicate Clean(cs: Classes, k: Kind, t: string) {
    forall s, e :: !Match(cs, k, t, s, e)
  }

  // ---- What a match can look like ----

  predicate Bracketless(w: string) { forall j :: 0 <= j < |w| ==> w[j] != '[' && w[j] != ']' }

  predicate AllUpper(w: string) { forall j :: 0 <= j < |w| ==> IsUpper(w[j]) }

  predicate SafePieces(pieces: seq<Piece>) {
    forall j :: 0 <= j < |pieces| && pieces[j].Sep? ==> '[' !in pieces[j].chars && ']' !in pieces[j].chars
  }

  lemma {:induction false} ShapedIsBracketless(cs: Classes, pieces: seq<Piece>, w: string)
    requires Sound(cs) && Shaped(cs, pieces, w) && SafePieces(pieces)
    ensures Bracketless(w)
    decreases |pieces|
  {
    if pieces != [] {
      match pieces[0]
      case Digits(n) =>
        ShapedIsBracketless(cs, pieces[1..], w[n..]);
        forall j | 0 <= j < |w|
          ensures w[j] != '[' && w[j] != ']'
        {
          if j >= n {
            assert w[j] == w[n..][j - n];
          }
        }
      case Sep(chars, optional) =>
        if w != "" && w[0] in chars && Shaped(cs, pieces[1..], w[1..]) {
          ShapedIsBracketless(cs, pieces[1..], w[1..]);
          forall j | 0 <= j < |w|
            ensures w[j] != '[' && w[j] != ']'
          {
            if j > 0 {
              assert w[j] == w[1..][j - 1];
            }
          }
        } else {
          ShapedIsBracketless(cs, pieces[1..], w);
        }
    }
  }

  /** No match holds a bracket, and none is made of upper-case letters only: so none lies inside a tag or across one. */
  lemma BodyShape(cs: Classes, k: Kind, w: string)
    requires Sound(cs) && Body(cs, k, w)
    ensures w != "" && Bracketless(w) && !AllUpper(w)
  {
    if k.Email? {
      var at, dot :| 0 <= at < dot < |w| && EmailParts(w, at, dot);
      assert !IsUpper(w[at]);
    } else {
      ShapedIsBracketless(cs, Pieces(k), w);
      assert Pieces(k)[0].Digits? && Pieces(k)[0].n > 0;
      assert cs.digit(w[0]);
    }
  }

  lemma TagShape(k: Kind)
    ensures Tag(Email) == "[EMAIL]" && Tag(Ssn) == "[SSN]" && Tag(Card) == "[CARD]" && Tag(Phone) == "[PHONE]"
    ensures var tag := Tag(k);
      |tag| >= 3 && tag[0] == '[' && tag[|tag| - 1] == ']' && AllUpper(tag[1..|tag| - 1])
  {
  }

  // ---- A match in the output comes from a match in the input ----

  /** Output free of "[" was copied: the n characters from i on are the input's, and no match of k starts in them. */
  lemma {:induction false} Copied(cs: Classes, k: Kind, t: string, i: nat, n: nat)
    requires i <= |t| && n <= |SubFrom(cs, k, t, i)|
    requires forall j :: 0 <= j < n ==> SubFrom(cs, k, t, i)[j] != '['
    ensures i + n <= |t| && SubFrom(cs, k, t, i) == t[i..i + n] + SubFrom(cs, k, t, i + n)
    ensures n > 0 ==> !StartsAt(cs, k, t, i)
    decreases n
  {
    if n == 0 {
      assert t[i..i] == "";
    } else {
      FirstIsCopied(cs, k, t, i);
      hide StartsAt, Longest, SubFrom;
      var out, rest := SubFrom(cs, k, t, i), SubFrom(cs, k, t, i + 1);
      forall j | 0 <= j < n - 1
        ensures rest[j] != '['
      {
        assert rest[j] == out[j + 1];
      }
      Copied(cs, k, t, i + 1, n - 1);
      OneMoreCopied(t, i, n, rest, SubFrom(cs, k, t, i + n));
    }
  }

  lemma OneMoreCopied(t: string, i: nat, n: nat, rest: string, tail: string)
    requires 0 < n && i + n <= |t| && rest == t[i + 1..i + n] + tail
    ensures [t[i]] + rest == t[i..i + n] + tail
  {
    assert t[i..i + n] == [t[i]] + t[i + 1..i + n];
  }

  lemma FirstIsCopied(cs: Classes, k: Kind, t: string, i: nat)
    requires i <= |t| && SubFrom(cs, k, t, i) != "" && SubFrom(cs, k, t, i)[0] != '['
    ensures i < |t| && !StartsAt(cs, k, t, i) && SubFrom(cs, k, t, i) == [t[i]] + SubFrom(cs, k, t, i + 1)
  {
    hide Match;
    TagShape(k);
  }

  /** `pre` is output emitted before input position i: the characters before agree, or i is a boundary of the input. */
  predicate Joined(cs: Classes, pre: string, t: string, i: nat)
    requires i <= |t|
  {
    || (pre == "" && i == 0)
    || (pre != "" && i > 0 && pre[|pre| - 1] == t[i - 1])
    || Boundary(cs, t, i)
  }

  /** A match of q right behind `pre` is a match of q in the input at i. */
  lemma HereMatch(cs: Classes, k: Kind, q: Kind, t: string, i: nat, pre: string, e: nat) returns (e': nat)
    requires Sound(cs) && i <= |t| && Joined(cs, pre, t, i)
    requires Match(cs, q, pre + SubFrom(cs, k, t, i), |pre|, e)
    ensures Match(cs, q, t, i, e') && !StartsAt(cs, k, t, i)
  {
    hide SubFrom, StartsAt, Body;
    var out := SubFrom(cs, k, t, i);
    var full := pre + out;
    var w, n := full[|pre|..e], e - |pre|;
    BodyShape(cs, q, w);
    assert w == out[..n];
    Copied(cs, k, t, i, n);
    e' := i + n;
    assert w == t[i..e'];
    assert full[e - 1] == w[n - 1] == t[e' - 1] && full[|pre|] == w[0] == t[i];
    assert full[e..] == SubFrom(cs, k, t, e');
    EndBoundary(cs, k, t, e', full, e);
  }

  /** The end of a copied stretch is a boundary of the input if it is one of the output. */
  lemma EndBoundary(cs: Classes, k: Kind, t: string, i: nat, full: string, e: nat)
    requires 0 < i <= |t| && 0 < e <= |full| && full[e..] == SubFrom(cs, k, t, i) && full[e - 1] == t[i - 1]
    requires Boundary(cs, full, e)
    ensures Boundary(cs, t, i)
  {
    if i < |t| && !StartsAt(cs, k, t, i) {
      assert full[e] == full[e..][0] == t[i];
    } else if i == |t| {
      assert full[e..] == "";
    }
  }

  /** Every match in the output behind `pre` has a counterpart in the input, at a place that was not replaced. */
  lemma {:induction false} Locate(cs: Classes, k: Kind, q: Kind, t: string, i: nat, pre: string, s: nat, e: nat)
    returns (s': nat, e': nat)
    requires Sound(cs) && i <= |t| && Joined(cs, pre, t, i)
    requires |pre| <= s && Match(cs, q, pre + SubFrom(cs, k, t, i), s, e)
    ensures Match(cs, q, t, s', e') && !StartsAt(cs, k, t, s')
    decreases |t| - i
  {
    if s == |pre| {
      s' := i;
      e' := HereMatch(cs, k, q, t, i, pre, e);
    } else {
      Emitted(cs, k, t, i, pre);
      assert i < |t|;
      hide SubFrom, Match, StartsAt;
      var next := Next(cs, k, t, i);
      var pre' := pre + Emission(cs, k, t, i);
      if s < |pre'| {
        NotInTag(cs, k, q, pre, SubFrom(cs, k, t, next), s, e);
      }
      s', e' := Locate(cs, k, q, t, next, pre', s, e);
    }
  }

  /** What scanning emits at i, and where it goes on. */
  function Emission(cs: Classes, k: Kind, t: string, i: nat): string
    requires i < |t|
  {
    if StartsAt(cs, k, t, i) then Tag(k) else [t[i]]
  }

  function Next(cs: Classes, k: Kind, t: string, i: nat): (n: nat)
    requires i < |t|
    ensures i < n <= |t|
  {
    if StartsAt(cs, k, t, i) then Longest(cs, k, t, i, |t|) else i + 1
  }

  lemma Emitted(cs: Classes, k: Kind, t: string, i: nat, pre: string)
    requires i <= |t| && Joined(cs, pre, t, i)
    ensures i == |t| ==> SubFrom(cs, k, t, i) == ""
    ensures i < |t| ==>
      && SubFrom(cs, k, t, i) == Emission(cs, k, t, i) + SubFrom(cs, k, t, Next(cs, k, t, i))
      && pre + SubFrom(cs, k, t, i) == pre + Emission(cs, k, t, i) + SubFrom(cs, k, t, Next(cs, k, t, i))
      && Joined(cs, pre + Emission(cs, k, t, i), t, Next(cs, k, t, i))
      && (|Emission(cs, k, t, i)| == 1 || Emission(cs, k, t, i) == Tag(k))
  {
    hide Body;
    TagShape(k);
  }

  lemma HoldsBracket(t: string, s: nat, e: nat, j: nat)
    requires s <= j < e <= |t| && t[j] == ']'
    ensures !Bracketless(t[s..e])
  {
    assert t[s..e][j - s] == ']';
  }

  /** No match starts inside an inserted tag. */
  lemma NotInTag(cs: Classes, k: Kind, q: Kind, pre: string, rest: string, s: nat, e: nat)
    requires Sound(cs) && |pre| <= s < |pre| + |Tag(k)|
    ensures !Match(cs, q, pre + Tag(k) + rest, s, e)
  {
    var tag := Tag(k);
    var full := pre + tag + rest;
    TagShape(k);
    if Match(cs, q, full, s, e) {
      var w := full[s..e];
      BodyShape(cs, q, w);
      var close := |pre| + |tag| - 1;
      assert full[close] == ']';
      if close < e {
        HoldsBracket(full, s, e, close);
      } else {
        forall j | 0 <= j < |w|
          ensures IsUpper(w[j])
        {
          assert w[j] == full[s + j] == tag[s + j - |pre|];
          assert w[j] != '[';
          assert s + j > |pre|;
          assert tag[s + j - |pre|] == tag[1..|tag| - 1][s + j - |pre| - 1];
        }
      }
    }
  }

  /** Substituting one pattern leaves no match of it, and creates no match of any other. */
  lemma SubCleans(cs: Classes, k: Kind, q: Kind, t: string)
    requires Sound(cs) && (q == k || Clean(cs, q, t))
    ensures Clean(cs, q, Sub(cs, k, t))
  {
    forall s, e
      ensures !Match(cs, q, Sub(cs, k, t), s, e)
    {
      if Match(cs, q, Sub(cs, k, t), s, e) {
        assert "" + Sub(cs, k, t) == Sub(cs, k, t);
        var _, _ := Locate(cs, k, q, t, 0, "", s, e);
      }
    }
  }

  lemma {:induction false} SubOfClean(cs: Classes, k: Kind, t: string, i: nat)
    requires Clean(cs, k, t) && i <= |t|
    ensures SubFrom(cs, k, t, i) == t[i..]
    decreases |t| - i
  {
    if i < |t| {
      SubOfClean(cs, k, t, i + 1);
    }
  }

  // ---- What substitution keeps ----

  /** t from i on, with the listed stretches replaced. */
  ghost function Weave(t: string, i: nat, spans: seq<(nat, nat)>, tag: string): string
    requires Ordered(t, i, spans)
    decreases |spans|
  {
    if spans == [] then t[i..]
    else t[i..spans[0].0] + tag + Weave(t, spans[0].1, spans[1..], tag)
  }

  ghost predicate Ordered(t: string, i: nat, spans: seq<(nat, nat)>)
    decreases |spans|
  {
    && i <= |t|
    && (spans != [] ==> i <= spans[0].0 < spans[0].1 <= |t| && Ordered(t, spans[0].1, spans[1..]))
  }

  ghost predicate NoLonger(cs: Classes, k: Kind, t: string, s: nat, e: nat) {
    forall x :: x > e ==> !Match(cs, k, t, s, x)
  }

  /** Each stretch is the longest match from its start, and none starts in between: matches are taken from the left. */
  ghost predicate LeftmostLongest(cs: Classes, k: Kind, t: string, i: nat, spans: seq<(nat, nat)>)
    requires i <= |t|
    decreases |spans|
  {
    var next := if spans == [] then |t| else spans[0].0;
    && (forall p :: i <= p < next ==> !StartsAt(cs, k, t, p))
    && (spans != [] ==>
          && next < spans[0].1 <= |t| && Match(cs, k, t, next, spans[0].1)
          && NoLonger(cs, k, t, next, spans[0].1)
          && LeftmostLongest(cs, k, t, spans[0].1, spans[1..]))
  }

  /** The output is the input with disjoint matches, taken from the left and each as long as can be, replaced by the
      tag and everything else as it was. */
  lemma {:induction false} OnlyMatchesGo(cs: Classes, k: Kind, t: string, i: nat) returns (spans: seq<(nat, nat)>)
    requires i <= |t|
    ensures Ordered(t, i, spans) && LeftmostLongest(cs, k, t, i, spans)
    ensures forall j :: 0 <= j < |spans| ==> Match(cs, k, t, spans[j].0, spans[j].1)
    ensures SubFrom(cs, k, t, i) == Weave(t, i, spans, Tag(k))
    decreases |t| - i
  {
    hide Body, Boundary, StartsAt;
    if i == |t| {
      return [];
    }
    Emitted(cs, k, t, i, t[..i]) by { JoinedSelf(cs, t, i); }
    hide SubFrom;
    var next := Next(cs, k, t, i);
    var rest := OnlyMatchesGo(cs, k, t, next);
    if StartsAt(cs, k, t, i) {
      spans := [(i, next)] + rest;
      LongestIs(cs, k, t, i);
      TakenLeft(cs, k, t, i, next, rest);
      WeaveSpan(t, i, next, rest, Tag(k));
    } else {
      spans := rest;
      PassedLeft(cs, k, t, i, rest);
      WeaveCopy(t, i, rest, Tag(k));
    }
    hide Weave, Ordered;
  }

  lemma TakenLeft(cs: Classes, k: Kind, t: string, i: nat, e: nat, rest: seq<(nat, nat)>)
    requires i < e <= |t| && LeftmostLongest(cs, k, t, e, rest) && Match(cs, k, t, i, e)
    requires NoLonger(cs, k, t, i, e)
    ensures LeftmostLongest(cs, k, t, i, [(i, e)] + rest)
  {
    hide Match, StartsAt;
    assert ([(i, e)] + rest)[1..] == rest;
  }

  lemma PassedLeft(cs: Classes, k: Kind, t: string, i: nat, rest: seq<(nat, nat)>)
    requires i < |t| && LeftmostLongest(cs, k, t, i + 1, rest) && !StartsAt(cs, k, t, i)
    ensures LeftmostLongest(cs, k, t, i, rest)
  {
    hide Match, StartsAt, NoLonger;
  }

  lemma LongestIs(cs: Classes, k: Kind, t: string, s: nat)
    requires StartsAt(cs, k, t, s)
    ensures s < |t| && Match(cs, k, t, s, Next(cs, k, t, s))
    ensures NoLonger(cs, k, t, s, Next(cs, k, t, s))
  {
    hide Body, Boundary;
    LongestAtMost(cs, k, t, s, |t|);
  }

  lemma {:induction false} LongestAtMost(cs: Classes, k: Kind, t: string, s: nat, e: nat)
    requires s < e <= |t| && exists x :: s < x <= e && Match(cs, k, t, s, x)
    ensures forall x :: Longest(cs, k, t, s, e) < x <= e ==> !Match(cs, k, t, s, x)
    decreases e
  {
    hide Body, Boundary;
    if !Match(cs, k, t, s, e) {
      LongestAtMost(cs, k, t, s, e - 1);
    }
  }

  lemma WeaveSpan(t: string, i: nat, e: nat, rest: seq<(nat, nat)>, tag: string)
    requires i < e <= |t| && Ordered(t, e, rest)
    ensures Ordered(t, i, [(i, e)] + rest) && Weave(t, i, [(i, e)] + rest, tag) == tag + Weave(t, e, rest, tag)
  {
    assert ([(i, e)] + rest)[1..] == rest && t[i..i] == "";
  }

  lemma WeaveCopy(t: string, i: nat, rest: seq<(nat, nat)>, tag: string)
    requires i < |t| && Ordered(t, i + 1, rest)
    ensures Ordered(t, i, rest) && Weave(t, i, rest, tag) == [t[i]] + Weave(t, i + 1, rest, tag)
  {
    if rest == [] {
      assert t[i..] == [t[i]] + t[i + 1..];
    } else {
      var gap, w := t[i + 1..rest[0].0], Weave(t, rest[0].1, rest[1..], tag);
      assert Weave(t, i + 1, rest, tag) == gap + tag + w;
      assert Weave(t, i, rest, tag) == t[i..rest[0].0] + tag + w;
      hide Weave, Ordered;
      assert t[i..rest[0].0] == [t[i]] + gap;
      assert ([t[i]] + gap) + tag + w == [t[i]] + (gap + tag + w);
    }
  }

  lemma JoinedSelf(cs: Classes, t: string, i: nat)
    requires i <= |t|
    ensures Joined(cs, t[..i], t, i)
  {
  }

  function RedactAll(cs: Classes, t: string, n: nat): string
    requires n <= |ORDER|
  {
    if n == 0 then t else Sub(cs, ORDER[n - 1], RedactAll(cs, t, n - 1))
  }

  lemma {:induction false} CleanSoFar(cs: Classes, t: string, n: nat, m: nat)
    requires Sound(cs) && m < n <= |ORDER|
    ensures Clean(cs, ORDER[m], RedactAll(cs, t, n))
  {
    if m < n - 1 {
      CleanSoFar(cs, t, n - 1, m);
    }
    SubCleans(cs, ORDER[n - 1], ORDER[m], RedactAll(cs, t, n - 1));
  }

  lemma {:induction false} RedactOfClean(cs: Classes, t: string, n: nat)
    requires n <= |ORDER| && forall m :: 0 <= m < n ==> Clean(cs, ORDER[m], t)
    ensures RedactAll(cs, t, n) == t
  {
    if n > 0 {
      RedactOfClean(cs, t, n - 1);
      SubOfClean(cs, ORDER[n - 1], t, 0);
    }
  }

  /** Redaction leaves nothing to redact: in its output none of the four patterns matches anywhere, whatever the text,
      and redacting again changes nothing. */
  lemma NothingLeft(cs: Classes, t: string)
    requires Sound(cs)
    ensures forall k: Kind :: Clean(cs, k, RedactAll(cs, t, |ORDER|))
    ensures RedactAll(cs, RedactAll(cs, t, |ORDER|), |ORDER|) == RedactAll(cs, t, |ORDER|)
  {
    forall m: nat | m < |ORDER|
      ensures Clean(cs, ORDER[m], RedactAll(cs, t, |ORDER|))
    {
      CleanSoFar(cs, t, |ORDER|, m);
    }
    forall k: Kind
      ensures Clean(cs, k, RedactAll(cs, t, |ORDER|))
    {
      assert k == ORDER[0] || k == ORDER[1] || k == ORDER[2] || k == ORDER[3];
    }
    hide Clean;
    RedactOfClean(cs, RedactAll(cs, t, |ORDER|), |ORDER|);
  }

  /** The four substitutions in turn: addresses, social security, card and phone numbers. */
  method RedactPii(cs: Classes, input: string) returns (text: string)
    requires Sound(cs)
    ensures text == Sub(cs, Phone, Sub(cs, Card, Sub(cs, Ssn, Sub(cs, Email, input))))
    ensures text == RedactAll(cs, input, |ORDER|)
    ensures forall k: Kind :: Clean(cs, k, text)
  {
    text := input;
    for n := 0 to |ORDER|
      invariant text == RedactAll(cs, input, n)
    {
      text := Sub(cs, ORDER[n], text);
    }
    NothingLeft(cs, input);
    InTurn(cs, input);
  }

  lemma InTurn(cs: Classes, t: string)
    ensures RedactAll(cs, t, |ORDER|) == Sub(cs, Phone, Sub(cs, Card, Sub(cs, Ssn, Sub(cs, Email, t))))
  {
    hide Sub;
    assert RedactAll(cs, t, 1) == Sub(cs, Email, RedactAll(cs, t, 0));
    assert RedactAll(cs, t, 2) == Sub(cs, Ssn, RedactAll(cs, t, 1));
    assert RedactAll(cs, t, 3) == Sub(cs, Card, RedactAll(cs, t, 2));
  }
}
