/** Search terms: the streaming tokenizer of the query side yields exactly the first 64 terms of the
    run-splitting tokenizer that built the index, over ASCII and the unified ideographs. */
module Terms {
  predicate Han(c: char) { '\U{4E00}' <= c <= '\U{9FFF}' }
  predicate Upper(c: char) { 'A' <= c <= 'Z' }
  predicate Word(c: char) { 'a' <= c <= 'z' || '0' <= c <= '9' }

  /** The characters on which both sides' character classes agree. */
  predicate Plain(c: char) { c < '\U{0080}' || Han(c) }

  function Lower(c: char): char { if Upper(c) then c + 32 as char else c }

  function LowerAll(s: string): string { seq(|s|, i requires 0 <= i < |s| => Lower(s[i])) }

  // ------------------------------------------------------------- the index's terms

  /** Length of the longest prefix in one class. */
  function HanRun(s: string): (n: nat)
    ensures n <= |s| && (forall i :: 0 <= i < n ==> Han(s[i])) && (n < |s| ==> !Han(s[n]))
  {
    if s == "" || !Han(s[0]) then 0 else 1 + HanRun(s[1..])
  }

  function WordRun(s: string): (n: nat)
    ensures n <= |s| && (forall i :: 0 <= i < n ==> Word(s[i])) && (n < |s| ==> !Word(s[n]))
  {
    if s == "" || !Word(s[0]) then 0 else 1 + WordRun(s[1..])
  }

  /** The two-character windows of a run of ideographs; a single one stands for itself. */
  function Bigrams(run: string): seq<string> {
    if |run| < 2 then [] else [run[..2]] + Bigrams(run[1..])
  }

  function Grams(run: string): seq<string> { if |run| == 1 then [run] else Bigrams(run) }

  /** All terms of a lower-cased text, left to right, with repetitions. */
  function Tokens(s: string): seq<string>
    decreases |s|
  {
    if s == "" then []
    else if Han(s[0]) then Grams(s[..HanRun(s)]) + Tokens(s[HanRun(s)..])
    else if Word(s[0]) then [s[..WordRun(s)]] + Tokens(s[WordRun(s)..])
    else Tokens(s[1..])
  }

  function AddTo(terms: seq<string>, t: string): seq<string> { if t == "" || t in terms then terms else terms + [t] }

  function AddAll(terms: seq<string>, more: seq<string>): seq<string>
    decreases |more|
  {
    if more == [] then terms else AddAll(AddTo(terms, more[0]), more[1..])
  }

  /** Ordered and distinct. */
  function Distinct(ts: seq<string>): seq<string> { AddAll([], ts) }

  function IndexTerms(text: string): seq<string> { Distinct(Tokens(LowerAll(text))) }

  // ------------------------------------------------------------------------ facts

  lemma {:induction false} AddAllAppend(terms: seq<string>, a: seq<string>, b: seq<string>)
    ensures AddAll(terms, a + b) == AddAll(AddAll(terms, a), b)
    decreases |a|
  {
    if a == [] {
      assert a + b == b;
    } else {
      assert (a + b)[1..] == a[1..] + b;
      AddAllAppend(AddTo(terms, a[0]), a[1..], b);
    }
  }

  predicate NoRepeats(ts: seq<string>) { forall i, k :: 0 <= i < k < |ts| ==> ts[i] != ts[k] }

  /** Distinct keeps every term once, in the order of first appearance. */
  lemma {:induction false} DistinctMeans(ts: seq<string>)
    requires "" !in ts
    ensures NoRepeats(Distinct(ts)) && forall t :: t in Distinct(ts) <==> t in ts
    ensures ts != [] ==>
              Distinct(ts) == Distinct(ts[..|ts| - 1]) + if ts[|ts| - 1] in ts[..|ts| - 1] then [] else [ts[|ts| - 1]]
  {
    if ts != [] {
      var last := |ts| - 1;
      DistinctMeans(ts[..last]);
      assert ts == ts[..last] + [ts[last]];
      AddAllAppend([], ts[..last], [ts[last]]);
    }
  }

  lemma {:induction false} HanRunOf(run: string, rest: string)
    requires (forall i :: 0 <= i < |run| ==> Han(run[i])) && (rest != "" ==> !Han(rest[0]))
    ensures HanRun(run + rest) == |run|
  {
    if run != "" {
      assert (run + rest)[1..] == run[1..] + rest;
      HanRunOf(run[1..], rest);
    } else {
      assert run + rest == rest;
    }
  }

  lemma {:induction false} WordRunOf(run: string, rest: string)
    requires (forall i :: 0 <= i < |run| ==> Word(run[i])) && (rest != "" ==> !Word(rest[0]))
    ensures WordRun(run + rest) == |run|
  {
    if run != "" {
      assert (run + rest)[1..] == run[1..] + rest;
      WordRunOf(run[1..], rest);
    } else {
      assert run + rest == rest;
    }
  }

  predicate AllWord(s: string) { forall i :: 0 <= i < |s| ==> Word(s[i]) }
  predicate AllHan(s: string) { forall i :: 0 <= i < |s| ==> Han(s[i]) }

  /** A finished run contributes its own terms and nothing of what follows. */
  lemma FinishedWord(word: string, rest: string)
    requires word != "" && AllWord(word) && (rest != "" ==> !Word(rest[0]))
    ensures Tokens(word + rest) == [word] + Tokens(rest)
  {
    WordRunOf(word, rest);
    assert (word + rest)[..|word|] == word && (word + rest)[|word|..] == rest;
  }

  lemma FinishedHan(han: string, rest: string)
    requires han != "" && AllHan(han) && (rest != "" ==> !Han(rest[0]))
    ensures Tokens(han + rest) == Grams(han) + Tokens(rest)
  {
    HanRunOf(han, rest);
    assert (han + rest)[..|han|] == han && (han + rest)[|han|..] == rest;
  }

  /** What two pending buffers, of which one is empty, hold. */
  function Pending(word: string, han: string): seq<string> { (if word == "" then [] else [word]) + Grams(han) }

  predicate Ends(word: string, han: string, rest: string) {
    rest != "" ==> (word != "" ==> !Word(rest[0])) && (han != "" ==> !Han(rest[0]))
  }

  lemma PendingThenRest(word: string, han: string, rest: string)
    requires (word == "" || han == "") && AllWord(word) && AllHan(han) && Ends(word, han, rest)
    ensures Tokens(word + han + rest) == Pending(word, han) + Tokens(rest)
  {
    if word != "" {
      assert word + han == word && Pending(word, han) == [word];
      FinishedWord(word, rest);
    } else if han != "" {
      assert word + han == han && Pending(word, han) == Grams(han);
      FinishedHan(han, rest);
    } else {
      assert word + han + rest == rest && Pending(word, han) == [] && [] + Tokens(rest) == Tokens(rest);
    }
  }

  lemma TakeRun(terms: seq<string>, word: string, han: string, rest: string)
    requires (word == "" || han == "") && AllWord(word) && AllHan(han) && Ends(word, han, rest)
    ensures AddAll(terms, Tokens(word + han + rest)) == AddAll(AddAll(terms, Pending(word, han)), Tokens(rest))
  {
    PendingThenRest(word, han, rest);
    AddAllAppend(terms, Pending(word, han), Tokens(rest));
  }

  lemma OneMore(terms: seq<string>, t: string)
    ensures AddAll(terms, [t]) == AddTo(terms, t)
  {
    assert AddAll(AddTo(terms, t), []) == AddTo(terms, t);
  }

  lemma LoweredIsPlain(input: string, i: nat)
    requires i < |input| && Plain(input[i])
    ensures Plain(LowerAll(input)[i]) && !Upper(LowerAll(input)[i])
  {
  }

  // ------------------------------------------------------------ the query's stream

  /** Two buffers, the terms seen, and the terms in order. The character classes are those of the
      platform's Unicode tables, known here only on plain characters. */
  class Tokenizer {
    const isHan: char -> bool
    const isWord: char -> bool
    var seen: set<string>
    var terms: seq<string>
    var word: string
    var han: string

    ghost predicate Valid()
      reads this
    {
      (forall t :: t in seen <==> t in terms) && (word == "" || han == "") && AllWord(word) && AllHan(han)
    }

    ghost predicate Agrees(c: char) { isHan(c) == Han(c) && (!Han(c) ==> isWord(c) == Word(c)) }

    constructor (isHan: char -> bool, isWord: char -> bool)
      ensures Valid() && terms == [] && word == "" && han == "" && this.isHan == isHan && this.isWord == isWord
    {
      this.isHan, this.isWord := isHan, isWord;
      seen, terms, word, han := {}, [], "", "";
    }

    method Add(value: string)
      requires Valid()
      modifies this`seen, this`terms
      ensures Valid() && terms == AddTo(old(terms), value)
    {
      if value != "" && value !in seen {
        seen := seen + {value};
        terms := terms + [value];
      }
    }

    /** The terms of the pending ideographs: one alone, or every window of two. */
    method AddHan()
      requires Valid() && word == ""
      modifies this`seen, this`terms
      ensures Valid() && terms == AddAll(old(terms), Grams(han))
    {
      if |han| == 1 {
        OneMore(terms, han);
        Add(han);
      }
      var i := 0;
      while i + 1 < |han|
        invariant Valid() && 0 <= i <= |han|
        invariant if |han| == 1 then i == 0 && terms == AddAll(old(terms), Grams(han))
                  else AddAll(terms, Bigrams(han[i..])) == AddAll(old(terms), Bigrams(han))
      {
        assert han[i..][..2] == han[i..i + 2] && han[i..][1..] == han[i + 1..];
        Add(han[i..i + 2]);
        i := i + 1;
      }
    }

    method Flush()
      requires Valid()
      modifies this
      ensures Valid() && word == "" && han == "" && terms == AddAll(old(terms), Pending(old(word), old(han)))
    {
      AddAllAppend(terms, if word == "" then [] else [word], Grams(han));
      if |word| > 0 {
        OneMore(terms, word);
        Add(word);
        word := "";
      }
      AddHan();
      han := "";
    }

    /** An ideograph ends a pending word and extends the pending run of ideographs. */
    method FeedHan(c: char, ghost rest: string)
      requires Valid() && Han(c)
      modifies this
      ensures Valid()
              && AddAll(terms, Tokens(word + han + rest))
                   == AddAll(old(terms), Tokens(old(word) + old(han) + ([c] + rest)))
    {
      TakeWordOnly(terms, word, han, c, rest);
      if |word| > 0 {
        Add(word);
        word := "";
      }
      han := han + [c];
    }

    /** A letter or digit ends a pending run of ideographs and extends the pending word. */
    method FeedWord(c: char, ghost rest: string)
      requires Valid() && Word(c)
      modifies this
      ensures Valid()
              && AddAll(terms, Tokens(word + han + rest))
                   == AddAll(old(terms), Tokens(old(word) + old(han) + ([c] + rest)))
    {
      if |han| > 0 {
        TakeRun(terms, word, han, [c] + rest);
        Flush();
        assert word + han + ([c] + rest) == [c] + rest;
      }
      assert word + [c] + han + rest == word + han + ([c] + rest);
      word := word + [c];
    }

    /** Anything else ends whatever is pending. */
    method FeedOther(c: char, ghost rest: string)
      requires Valid() && !Han(c) && !Word(c)
      modifies this
      ensures Valid()
              && AddAll(terms, Tokens(word + han + rest))
                   == AddAll(old(terms), Tokens(old(word) + old(han) + ([c] + rest)))
    {
      TakeRun(terms, word, han, [c] + rest);
      SkipsOther(c, rest);
      Flush();
      assert word + han + rest == rest;
    }

    /** Tokenize a text in one pass, keeping the first 64 distinct terms. */
    method TextTerms(input: string) returns (result: seq<string>)
      requires Valid() && terms == [] && word == "" && han == "" && (forall c :: Plain(c) && !Upper(c) ==> Agrees(c))
      requires forall i :: 0 <= i < |input| ==> Plain(input[i])
      modifies this
      ensures result == if |IndexTerms(input)| > 64 then IndexTerms(input)[..64] else IndexTerms(input)
    {
      var s := LowerAll(input);
      assert word + han + s[0..] == s;
      for i := 0 to |s|
        invariant Valid() && AddAll(terms, Tokens(word + han + s[i..])) == IndexTerms(input)
      {
        assert s[i..] == [s[i]] + s[i + 1..];
        LoweredIsPlain(input, i);
        assert Agrees(s[i]);
        if isHan(s[i]) {
          FeedHan(s[i], s[i + 1..]);
        } else if isWord(s[i]) {
          FeedWord(s[i], s[i + 1..]);
        } else {
          FeedOther(s[i], s[i + 1..]);
        }
      }
      TakeRun(terms, word, han, s[|s|..]);
      Flush();
      return if |terms| > 64 then terms[..64] else terms;
    }
  }

  lemma SkipsOther(c: char, rest: string)
    requires !Han(c) && !Word(c)
    ensures Tokens([c] + rest) == Tokens(rest)
  {
    assert ([c] + rest)[1..] == rest;
  }

  lemma TakeWordOnly(terms: seq<string>, word: string, han: string, c: char, rest: string)
    requires (word == "" || han == "") && AllWord(word) && Han(c)
    ensures AddAll(terms, Tokens(word + han + ([c] + rest)))
              == AddAll(if word == "" then terms else AddTo(terms, word), Tokens("" + (han + [c]) + rest))
  {
    assert "" + (han + [c]) + rest == han + ([c] + rest);
    if word != "" {
      assert han + ([c] + rest) == [c] + rest && word + han + ([c] + rest) == word + ([c] + rest);
      FinishedWord(word, [c] + rest);
      AddAllAppend(terms, [word], Tokens([c] + rest));
      assert AddAll(terms, [word]) == AddTo(terms, word);
    } else {
      assert word + han + ([c] + rest) == han + ([c] + rest);
    }
  }
}
