/** Tokens and phrases of project memory text, and phrase matching as the search accepts it. */
module MemoryText {
  type Token = string
  type Phrase = seq<Token>

  /** Letters and digits of the normalized text; what counts as one is a parameter. */
  type Alphabet = char -> bool

  /** The maximal non-empty runs of accepted characters; `open` is the run being read. */
  function Runs(text: string, accepted: Alphabet, open: string): seq<Token>
    decreases |text|
  {
    if text == [] then Closed(open)
    else if accepted(text[0]) then Runs(text[1..], accepted, open + [text[0]])
    else Closed(open) + Runs(text[1..], accepted, [])
  }

  function Closed(open: string): seq<Token> {
    if open == [] then [] else [open]
  }

  function Tokens(text: string, word: Alphabet): seq<Token> {
    Runs(text, word, [])
  }

  function Joined(tokens: seq<Token>): string
    decreases |tokens|
  {
    if tokens == [] then [] else tokens[0] + Joined(tokens[1..])
  }

  function Kept(text: string, accepted: Alphabet): string
    decreases |text|
  {
    if text == [] then []
    else if accepted(text[0]) then [text[0]] + Kept(text[1..], accepted)
    else Kept(text[1..], accepted)
  }

  /** The tokens are non-empty and hold exactly the accepted characters of the text, in order. */
  lemma {:induction false} RunsKeepTheText(text: string, accepted: Alphabet, open: string)
    ensures Joined(Runs(text, accepted, open)) == open + Kept(text, accepted)
    ensures forall t :: t in Runs(text, accepted, open) ==> t != []
    decreases |text|
  {
    if text == [] {
      if open != [] { assert [open][1..] == []; }
    } else if accepted(text[0]) {
      RunsKeepTheText(text[1..], accepted, open + [text[0]]);
      assert open + [text[0]] + Kept(text[1..], accepted) == open + ([text[0]] + Kept(text[1..], accepted));
    } else {
      RunsKeepTheText(text[1..], accepted, []);
      var rest := Runs(text[1..], accepted, []);
      if open != [] { assert ([open] + rest)[1..] == rest; } else { assert [] + rest == rest; }
    }
  }

  /** A rejected character ends a token and starts none: the two sides are tokenized on their own. */
  lemma {:induction false} RunsSplit(left: string, c: char, right: string, accepted: Alphabet, open: string)
    requires !accepted(c)
    ensures Runs(left + [c] + right, accepted, open) == Runs(left, accepted, open) + Runs(right, accepted, [])
    decreases |left|
  {
    var text := left + [c] + right;
    if left == [] {
      assert text[0] == c && text[1..] == right;
    } else {
      assert text[0] == left[0] && text[1..] == left[1..] + [c] + right;
      if accepted(left[0]) {
        RunsSplit(left[1..], c, right, accepted, open + [left[0]]);
      } else {
        RunsSplit(left[1..], c, right, accepted, []);
      }
    }
  }

  function Deduplicated<T(==)>(s: seq<T>): seq<T>
    decreases |s|
  {
    if s == [] then []
    else
      var init := Deduplicated(s[..|s| - 1]);
      if s[|s| - 1] in init then init else init + [s[|s| - 1]]
  }

  /** The distinct tokens stored beside a text. */
  function CanonicalTokens(text: string, word: Alphabet): seq<Token> {
    Deduplicated(Tokens(text, word))
  }

  function Unquoted(text: string): string
    decreases |text|
  {
    if text == [] then [] else [if text[0] == '"' then ' ' else text[0]] + Unquoted(text[1..])
  }

  /** Query chunks may contain hyphens and underscores. */
  function Chunky(word: Alphabet): Alphabet {
    c => word(c) || c == '-' || c == '_'
  }

  function Chunks(query: string, word: Alphabet): seq<Token> {
    Long(Runs(Unquoted(query), Chunky(word), []))
  }

  function Long(chunks: seq<Token>): seq<Token>
    decreases |chunks|
  {
    if chunks == [] then []
    else Long(chunks[..|chunks| - 1]) + if |chunks[|chunks| - 1]| > 1 then [chunks[|chunks| - 1]] else []
  }

  /** Each chunk is a phrase of word tokens; empty and repeated ones are dropped. */
  function PhrasesOf(chunks: seq<Token>, word: Alphabet): seq<Phrase>
    decreases |chunks|
  {
    if chunks == [] then []
    else
      var init := PhrasesOf(chunks[..|chunks| - 1], word);
      var phrase := Tokens(chunks[|chunks| - 1], word);
      if phrase == [] || phrase in init then init else init + [phrase]
  }

  function QueryPhrases(query: string, word: Alphabet): seq<Phrase> {
    PhrasesOf(Chunks(query, word), word)
  }

  function Flat(phrases: seq<Phrase>): seq<Token>
    decreases |phrases|
  {
    if phrases == [] then [] else Flat(phrases[..|phrases| - 1]) + phrases[|phrases| - 1]
  }

  // ---------------------------------------------------------------- matching

  predicate OccursAt(tokens: seq<Token>, phrase: Phrase, start: nat) {
    start + |phrase| <= |tokens| && forall k :: 0 <= k < |phrase| ==> tokens[start + k] == phrase[k]
  }

  /** The phrase is a contiguous part of the tokens. */
  ghost predicate Occurs(tokens: seq<Token>, phrase: Phrase) {
    exists start: nat :: OccursAt(tokens, phrase, start)
  }

  ghost predicate Matches(text: string, phrases: seq<Phrase>, word: Alphabet) {
    exists i :: 0 <= i < |phrases| && Occurs(Tokens(text, word), phrases[i])
  }

  predicate Overlap(stored: seq<Token>, asked: seq<Token>) {
    exists t :: t in stored && t in asked
  }

  lemma {:induction false} DeduplicatedKeeps<T>(s: seq<T>, x: T)
    ensures x in Deduplicated(s) <==> x in s
    decreases |s|
  {
    if s != [] {
      DeduplicatedKeeps(s[..|s| - 1], x);
      assert s == s[..|s| - 1] + [s[|s| - 1]];
    }
  }

  lemma {:induction false} FlatHas(phrases: seq<Phrase>, i: nat, t: Token)
    requires i < |phrases| && t in phrases[i]
    ensures t in Flat(phrases)
    decreases |phrases|
  {
    if i < |phrases| - 1 { FlatHas(phrases[..|phrases| - 1], i, t); }
  }

  lemma {:induction false} PhrasesAreNotEmpty(chunks: seq<Token>, word: Alphabet, i: nat)
    requires i < |PhrasesOf(chunks, word)|
    ensures PhrasesOf(chunks, word)[i] != []
    decreases |chunks|
  {
    if i < |PhrasesOf(chunks[..|chunks| - 1], word)| { PhrasesAreNotEmpty(chunks[..|chunks| - 1], word, i); }
  }

  /** The prefilter is sound: text that matches a phrase shares a stored token with the query. */
  lemma MatchImpliesOverlap(text: string, query: string, word: Alphabet)
    requires Matches(text, QueryPhrases(query, word), word)
    ensures Overlap(CanonicalTokens(text, word), Deduplicated(Flat(QueryPhrases(query, word))))
  {
    var phrases, tokens := QueryPhrases(query, word), Tokens(text, word);
    var i :| 0 <= i < |phrases| && Occurs(tokens, phrases[i]);
    PhrasesAreNotEmpty(Chunks(query, word), word, i);
    var start: nat :| OccursAt(tokens, phrases[i], start);
    var t := phrases[i][0];
    assert tokens[start + 0] == t;
    DeduplicatedKeeps(tokens, t);
    FlatHas(phrases, i, t);
    DeduplicatedKeeps(Flat(phrases), t);
  }

  /** The scan of one phrase: leave the inner loop at the first difference. */
  method HasPhrase(tokens: seq<Token>, phrase: Phrase) returns (found: bool)
    requires phrase != []
    ensures found <==> Occurs(tokens, phrase)
  {
    if |phrase| == 1 {
      found := phrase[0] in tokens;
      if found {
        var start: nat :| start < |tokens| && tokens[start] == phrase[0];
        assert OccursAt(tokens, phrase, start);
      }
      return;
    }
    var start := 0;
    while start <= |tokens| - |phrase|
      invariant 0 <= start
      invariant forall s: nat :: s < start ==> !OccursAt(tokens, phrase, s)
    {
      var offset := 0;
      while offset < |phrase| && tokens[start + offset] == phrase[offset]
        invariant 0 <= offset <= |phrase|
        invariant forall k :: 0 <= k < offset ==> tokens[start + k] == phrase[k]
      {
        offset := offset + 1;
      }
      if offset == |phrase| {
        assert OccursAt(tokens, phrase, start);
        return true;
      }
      assert !OccursAt(tokens, phrase, start) by { assert tokens[start + offset] != phrase[offset]; }
      start := start + 1;
    }
    return false;
  }

  method MatchesLegacyFts(text: string, phrases: seq<Phrase>, word: Alphabet) returns (matched: bool)
    requires forall i :: 0 <= i < |phrases| ==> phrases[i] != []
    ensures matched <==> Matches(text, phrases, word)
  {
    var tokens := Tokens(text, word);
    var i := 0;
    while i < |phrases|
      invariant 0 <= i <= |phrases|
      invariant forall j :: 0 <= j < i ==> !Occurs(tokens, phrases[j])
    {
      var found := HasPhrase(tokens, phrases[i]);
      if found { return true; }
      i := i + 1;
    }
    return false;
  }
}
