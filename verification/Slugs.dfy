/** Participant slugs of a group chat, and the transcript that resolves them back to agent names. */
module Slugs {
  import opened Base
  import opened Decimal

  /** The classes \w and str.isdigit. */
  datatype Classes = Classes(word: char -> bool, digit: char -> bool)

  /** What both classes contain of the characters the slugs themselves introduce. */
  ghost predicate Sound(cs: Classes) {
    && cs.word('_') && !cs.digit('_') && !cs.digit('a')
    && (forall c :: c in "agent" ==> cs.word(c))
    && (forall c :: IsDigit(c) ==> cs.word(c))
  }

  function Sanitize(cs: Classes, name: string): (s: string)
    ensures |s| == |name|
    ensures forall k :: 0 <= k < |s| ==> s[k] == if cs.word(name[k]) then name[k] else '_'
  {
    seq(|name|, k requires 0 <= k < |name| => if cs.word(name[k]) then name[k] else '_')
  }

  function StripUnderscores(s: string): (t: string)
    ensures forall c :: c in t ==> c in s
    decreases |s|
  {
    if s != "" && s[0] == '_' then StripUnderscores(s[1..])
    else if s != "" && s[|s| - 1] == '_' then StripUnderscores(s[..|s| - 1])
    else s
  }

  function BaseSlug(cs: Classes, name: string): string {
    var s := StripUnderscores(Sanitize(cs, name));
    var t := if s == "" then "agent" else s;
    if cs.digit(t[0]) then "a_" + t else t
  }

  /** What is left of a name between two places of it. */
  lemma {:induction false} StrippedBetween(s: string) returns (i: nat, j: nat)
    ensures i <= j <= |s| && StripUnderscores(s) == s[i..j]
    ensures forall k :: 0 <= k < i || j <= k < |s| ==> s[k] == '_'
    ensures i < j ==> s[i] != '_' && s[j - 1] != '_'
    decreases |s|
  {
    if s != "" && s[0] == '_' {
      var a, b := StrippedBetween(s[1..]);
      i, j := a + 1, b + 1;
      assert s[1..][a..b] == s[i..j];
      forall k | 0 <= k < i || j <= k < |s|
        ensures s[k] == '_'
      {
        if k > 0 { assert s[k] == s[1..][k - 1]; }
      }
    } else if s != "" && s[|s| - 1] == '_' {
      i, j := StrippedBetween(s[..|s| - 1]);
      assert s[..|s| - 1][i..j] == s[i..j];
      forall k | 0 <= k < i || j <= k < |s|
        ensures s[k] == '_'
      {
        if k < |s| - 1 { assert s[k] == s[..|s| - 1][k]; }
      }
    } else {
      i, j := 0, |s|;
      assert s[0..|s|] == s;
    }
  }

  /** What a name becomes: without the underscores and other non-word characters around it, with an underscore for each
      of those inside, "agent" if nothing is left, and behind "a_" if it would begin with a digit. */
  lemma BaseSlugIs(cs: Classes, name: string) returns (i: nat, j: nat)
    requires Sound(cs)
    ensures i <= j <= |name|
    ensures forall k :: 0 <= k < i || j <= k < |name| ==> name[k] == '_' || !cs.word(name[k])
    ensures i < j ==> forall c :: c == name[i] || c == name[j - 1] ==> c != '_' && cs.word(c)
    ensures var kept := seq(j - i, k requires 0 <= k < j - i => if cs.word(name[i + k]) then name[i + k] else '_');
      BaseSlug(cs, name) == if i == j then "agent" else if cs.digit(kept[0]) then "a_" + kept else kept
  {
    var s := Sanitize(cs, name);
    i, j := StrippedBetween(s);
    var kept := seq(j - i, k requires 0 <= k < j - i => if cs.word(name[i + k]) then name[i + k] else '_');
    forall k | 0 <= k < i || j <= k < |name|
      ensures name[k] == '_' || !cs.word(name[k])
    {
      assert s[k] == '_';
    }
    assert kept == s[i..j];
    hide Sanitize, StripUnderscores;
  }

  /** A name that already is a slug, with no underscore at either end, is its own first candidate. */
  lemma SlugsStay(cs: Classes, name: string)
    requires WellFormed(cs, name) && name[0] != '_' && name[|name| - 1] != '_'
    ensures BaseSlug(cs, name) == name
  {
    forall k | 0 <= k < |name|
      ensures Sanitize(cs, name)[k] == name[k]
    {
      assert name[k] in name;
    }
    assert Sanitize(cs, name) == name;
  }

  /** base, base_2, base_3, ... */
  function Candidate(base: string, n: nat): string
    requires n >= 1
  {
    if n == 1 then base else base + "_" + Str(n)
  }

  ghost predicate WellFormed(cs: Classes, slug: string) {
    && slug != "" && !cs.digit(slug[0])
    && forall c :: c in slug ==> cs.word(c)
  }

  lemma BaseIsWellFormed(cs: Classes, name: string)
    requires Sound(cs)
    ensures WellFormed(cs, BaseSlug(cs, name))
  {
    var s := StripUnderscores(Sanitize(cs, name));
    forall c | c in s
      ensures cs.word(c)
    {
      assert c in Sanitize(cs, name);
    }
  }

  lemma CandidateIsWellFormed(cs: Classes, base: string, n: nat)
    requires Sound(cs) && WellFormed(cs, base) && n >= 1
    ensures WellFormed(cs, Candidate(base, n))
  {
    if n > 1 {
      var digits := Str(n);
      hide Str;
      forall c | c in base + "_" + digits
        ensures cs.word(c)
      {
        assert c in base || c == '_' || c in digits;
      }
    }
  }

  lemma CandidatesDiffer(base: string, a: nat, b: nat)
    requires a >= 1 && b >= 1 && Candidate(base, a) == Candidate(base, b)
    ensures a == b
  {
    if a > 1 && b > 1 {
      var x, y := base + "_" + Str(a), base + "_" + Str(b);
      assert x[|base| + 1..] == Str(a) && y[|base| + 1..] == Str(b);
      StrInjective(a, b);
    }
  }

  function Tried(base: string, n: nat): set<string> { set j | 1 <= j <= n :: Candidate(base, j) }

  lemma TriedMore(base: string, n: nat)
    requires n > 0
    ensures Tried(base, n) == Tried(base, n - 1) + {Candidate(base, n)}
  {
    hide Candidate;
  }

  /** The first n candidates are n different strings. */
  lemma {:induction false} TriedSize(base: string, n: nat)
    ensures |Tried(base, n)| == n
  {
    hide Str, Candidate;
    if n == 0 {
      assert Tried(base, 0) == {};
    } else {
      TriedSize(base, n - 1);
      TriedMore(base, n);
      if Candidate(base, n) in Tried(base, n - 1) {
        var j :| 1 <= j <= n - 1 && Candidate(base, j) == Candidate(base, n);
        CandidatesDiffer(base, j, n);
      }
    }
  }

  /** `n` is the first candidate that is not taken. */
  ghost predicate FirstFree(base: string, taken: set<string>, n: nat) {
    && n >= 1 && Candidate(base, n) !in taken
    && forall j :: 1 <= j < n ==> Candidate(base, j) in taken
  }

  class SlugSet {
    const cs: Classes
    var taken: set<string>

    constructor (cs: Classes)
      ensures this.cs == cs && taken == {}
    {
      this.cs, taken := cs, {};
    }

    /** Takes the first free candidate; at most |taken| of them are tried in vain. */
    method Slugify(name: string) returns (slug: string, ghost n: nat)
      requires Sound(cs)
      modifies this
      ensures FirstFree(BaseSlug(cs, name), old(taken), n) && slug == Candidate(BaseSlug(cs, name), n)
      ensures slug == if n == 1 then BaseSlug(cs, name) else BaseSlug(cs, name) + "_" + Str(n)
      ensures n > 1 ==> BaseSlug(cs, name) in old(taken)
      ensures forall j: nat :: 1 < j < n ==> BaseSlug(cs, name) + "_" + Str(j) in old(taken)
      ensures n <= |old(taken)| + 1
      ensures taken == old(taken) + {slug} && slug !in old(taken)
      ensures WellFormed(cs, slug) && SlugOf(cs, slug, name)
    {
      slug := BaseSlug(cs, name);
      var base, i := slug, 2;
      BaseIsWellFormed(cs, name);
      hide Str, BaseSlug;
      while slug in taken
        invariant taken == old(taken) && i >= 2 && slug == Candidate(base, i - 1)
        invariant forall j :: 1 <= j < i - 1 ==> Candidate(base, j) in taken
        decreases |taken| + 2 - i
      {
        assert Tried(base, i - 1) <= taken;
        SubsetSize(Tried(base, i - 1), taken);
        TriedSize(base, i - 1);
        slug := base + "_" + Str(i);
        i := i + 1;
      }
      n := i - 1;
      SubsetSize(Tried(base, n - 1), taken);
      TriedSize(base, n - 1);
      CandidateIsWellFormed(cs, base, n);
      forall j: nat | 1 < j < n
        ensures base + "_" + Str(j) in taken
      {
        assert Candidate(base, j) in taken;
      }
      taken := taken + {slug};
    }
  }

  /** The name's own first candidate, or that with a number from 2 on. */
  ghost predicate SlugOf(cs: Classes, slug: string, name: string) {
    var base := BaseSlug(cs, name);
    slug == base || exists n: nat :: n >= 2 && slug == base + "_" + Str(n)
  }

  ghost predicate AllWellFormed(cs: Classes, slugs: seq<string>) {
    forall k :: 0 <= k < |slugs| ==> WellFormed(cs, slugs[k])
  }

  const PLANNER := "Planner"
  const PLACEHOLDER := "Placeholder"

  /** Who takes part in a turn: the tenant's agents in order, and the extra participant, if any. */
  datatype Cast = Cast(slugs: seq<string>, extra: Option<string>, nameBySlug: map<string, string>)

  ghost predicate Resolves(cast: Cast, names: seq<string>) {
    && |cast.slugs| == |names|
    && (forall k :: 0 <= k < |names| ==>
          cast.slugs[k] in cast.nameBySlug && cast.nameBySlug[cast.slugs[k]] == names[k])
    && (forall j, k :: 0 <= j < k < |names| ==> cast.slugs[j] != cast.slugs[k])
    && (cast.extra.Some? ==> cast.extra.value !in cast.slugs && cast.extra.value in cast.nameBySlug)
  }

  /** The agents so far, and the names by slug that are taken. */
  ghost predicate Filed(
      cs: Classes, taken: set<string>, slugs: seq<string>, nameBySlug: map<string, string>, names: seq<string>) {
    && nameBySlug.Keys == taken && nameBySlug.Keys >= Elements(slugs)
    && AllWellFormed(cs, slugs) && Resolves(Cast(slugs, None, nameBySlug), names)
    && forall k :: 0 <= k < |names| ==> SlugOf(cs, slugs[k], names[k])
  }

  lemma FileOne(
    cs: Classes, taken: set<string>, slugs: seq<string>, nameBySlug: map<string, string>, names: seq<string>,
    slug: string, name: string)
    requires Filed(cs, taken, slugs, nameBySlug, names)
    requires slug !in taken && WellFormed(cs, slug) && SlugOf(cs, slug, name)
    ensures Filed(cs, taken + {slug}, slugs + [slug], nameBySlug[slug := name], names + [name])
  {
    hide WellFormed, SlugOf;
    assert forall s :: s in slugs ==> s in Elements(slugs);
  }

  lemma AddExtra(cast: Cast, names: seq<string>, slug: string, name: string)
    requires Resolves(cast, names) && cast.extra.None? && cast.nameBySlug.Keys >= Elements(cast.slugs)
    requires slug !in cast.nameBySlug
    ensures Resolves(Cast(cast.slugs, Some(slug), cast.nameBySlug[slug := name]), names)
  {
    assert forall s :: s in cast.slugs ==> s in Elements(cast.slugs);
  }

  /** The tenant's own agents. */
  method AddAgents(book: SlugSet, names: seq<string>) returns (slugs: seq<string>, nameBySlug: map<string, string>)
    requires Sound(book.cs) && book.taken == {}
    modifies book
    ensures Filed(book.cs, book.taken, slugs, nameBySlug, names)
  {
    hide BaseSlug, FirstFree, WellFormed, Filed, Candidate, Sound, Str, SlugOf;
    slugs, nameBySlug := [], map[];
    NobodyYet(book.cs);
    for k := 0 to |names|
      invariant Filed(book.cs, book.taken, slugs, nameBySlug, names[..k])
    {
      ghost var taken := book.taken;
      var slug, _ := book.Slugify(names[k]);
      FileOne(book.cs, taken, slugs, nameBySlug, names[..k], slug, names[k]);
      assert names[..k] + [names[k]] == names[..k + 1];
      slugs := slugs + [slug];
      nameBySlug := nameBySlug[slug := names[k]];
    }
    assert names[..|names|] == names;
  }

  /** The participants of one chat. Whatever the agents are called, slugs are pairwise distinct and well formed, and
      each resolves to its own agent's name; the planner joins planning turns, the placeholder solo turns. */
  method BuildCast(cs: Classes, names: seq<string>, planning: bool) returns (r: Result<Cast>)
    requires Sound(cs)
    ensures r.Err? <==> names == []
    ensures r.Ok? ==>
      && Resolves(r.value, names)
      && AllWellFormed(cs, r.value.slugs)
      && (forall k :: 0 <= k < |names| ==> SlugOf(cs, r.value.slugs[k], names[k]))
      && (r.value.extra.Some? <==> planning || |names| < 2)
      && (r.value.extra.Some? ==>
            && WellFormed(cs, r.value.extra.value)
            && r.value.nameBySlug[r.value.extra.value] == if planning then PLANNER else PLACEHOLDER)
  {
    hide BaseSlug, FirstFree, WellFormed, AllWellFormed, Elements, Candidate, Sound, Str, SlugOf;
    if names == [] {
      return Err(Invalid("tenant has no agents configured"));
    }
    var book := new SlugSet(cs);
    var slugs, nameBySlug := AddAgents(book, names);
    if planning || |names| < 2 {
      var extra := if planning then PLANNER else PLACEHOLDER;
      var slug, _ := book.Slugify(extra);
      AddExtra(Cast(slugs, None, nameBySlug), names, slug, extra);
      return Ok(Cast(slugs, Some(slug), nameBySlug[slug := extra]));
    }
    return Ok(Cast(slugs, None, nameBySlug));
  }

  lemma NobodyYet(cs: Classes)
    ensures Filed(cs, {}, [], map[], [])
  {
  }

  // ---- Transcript ----

  /** A message of the finished chat; `text` is None for events and for non-text content. */
  datatype Message = Message(source: string, text: Option<string>)

  datatype ChatMessage = ChatMessage(role: string, content: string, agent: string)

  function ToTranscript(messages: seq<Message>, nameBySlug: map<string, string>): seq<ChatMessage> {
    if messages == [] then [] else
    var m := messages[|messages| - 1];
    ToTranscript(messages[..|messages| - 1], nameBySlug) +
      if m.text.None? then []
      else [ChatMessage("assistant", m.text.value, if m.source in nameBySlug then nameBySlug[m.source] else m.source)]
  }

  function TextCount(messages: seq<Message>): nat {
    if messages == [] then 0
    else TextCount(messages[..|messages| - 1]) + if messages[|messages| - 1].text.Some? then 1 else 0
  }

  /** Each text message stands in the transcript at its place among the text messages, as the assistant's, under the
      name its source resolves to, or else under the source itself. */
  lemma {:induction false} TextIsKept(messages: seq<Message>, nameBySlug: map<string, string>, j: nat)
    requires j < |messages| && messages[j].text.Some?
    ensures var t, source := ToTranscript(messages, nameBySlug), messages[j].source;
      && |t| == TextCount(messages) && TextCount(messages[..j]) < |t|
      && t[TextCount(messages[..j])] == ChatMessage(
           "assistant", messages[j].text.value, if source in nameBySlug then nameBySlug[source] else source)
  {
    var before := messages[..|messages| - 1];
    TranscriptSize(before, nameBySlug);
    TranscriptSize(messages, nameBySlug);
    if j < |before| {
      TextIsKept(before, nameBySlug, j);
      assert before[..j] == messages[..j];
    }
  }

  /** What agent k said appears in the transcript, at its place among the text messages, under agent k's name. */
  lemma SpeakerIsNamed(cast: Cast, names: seq<string>, messages: seq<Message>, j: nat, k: nat)
    requires Resolves(cast, names) && j < |messages| && k < |names|
    requires messages[j].text.Some? && messages[j].source == cast.slugs[k]
    ensures var t := ToTranscript(messages, cast.nameBySlug);
      && |t| == TextCount(messages) && TextCount(messages[..j]) < |t|
      && t[TextCount(messages[..j])] == ChatMessage("assistant", messages[j].text.value, names[k])
  {
    TextIsKept(messages, cast.nameBySlug, j);
  }

  lemma {:induction false} TranscriptSize(messages: seq<Message>, nameBySlug: map<string, string>)
    ensures |ToTranscript(messages, nameBySlug)| == TextCount(messages)
  {
    if messages != [] {
      TranscriptSize(messages[..|messages| - 1], nameBySlug);
    }
  }
}
