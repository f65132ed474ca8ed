/** normalizeName: names are compared without regard to case and spacing. ASCII letters only. */
module Names {

  predicate IsSpace(c: char) {
    c as int in {9, 10, 11, 12, 13, 32, 160}
  }

  function Upper(c: char): char {
    if 'a' <= c <= 'z' then (c as int - 32) as char else c
  }

  function UpperAll(s: string): string {
    seq(|s|, i requires 0 <= i < |s| => Upper(s[i]))
  }

  /** Length of the leading run of non-space characters. */
  function WordLength(s: string): (n: nat)
    ensures n <= |s|
    ensures forall i | 0 <= i < n :: !IsSpace(s[i])
    ensures n < |s| ==> IsSpace(s[n])
  {
    if s == "" || IsSpace(s[0]) then 0 else 1 + WordLength(s[1..])
  }

  function Words(s: string): seq<string>
    decreases |s|
  {
    if s == "" then []
    else if IsSpace(s[0]) then Words(s[1..])
    else [s[..WordLength(s)]] + Words(s[WordLength(s)..])
  }

  function Join(words: seq<string>): string {
    if |words| == 0 then "" else if |words| == 1 then words[0] else words[0] + " " + Join(words[1..])
  }

  /** trim, collapse inner white space to one blank, upper-case. */
  function NormalizeName(name: string): string {
    Join(Words(UpperAll(name)))
  }

  predicate IsWord(w: string) {
    w != "" && forall c <- w :: !IsSpace(c)
  }

  lemma {:induction false} WordsAreWords(s: string)
    ensures forall w <- Words(s) :: IsWord(w)
    decreases |s|
  {
    if s != "" {
      if IsSpace(s[0]) {
        WordsAreWords(s[1..]);
      } else {
        WordsAreWords(s[WordLength(s)..]);
      }
    }
  }

  lemma {:induction false} WordThenRest(w: string, rest: string)
    requires IsWord(w) && (rest == "" || IsSpace(rest[0]))
    ensures Words(w + rest) == [w] + Words(rest)
  {
    var s := w + rest;
    var n := WordLength(s);
    assert s[0] == w[0];
    assert forall i | 0 <= i < |w| :: s[i] == w[i] && !IsSpace(s[i]);
    assert rest != "" ==> s[|w|] == rest[0];
    assert n == |w|;
    assert s[..|w|] == w && s[|w|..] == rest;
  }

  lemma {:induction false} WordsOfJoin(words: seq<string>)
    requires forall w <- words :: IsWord(w)
    ensures Words(Join(words)) == words
  {
    if |words| == 1 {
      assert words[0] + "" == words[0];
      WordThenRest(words[0], "");
      assert words == [words[0]];
    } else if |words| > 1 {
      WordsOfJoin(words[1..]);
      var rest := " " + Join(words[1..]);
      assert words[0] + " " + Join(words[1..]) == words[0] + rest;
      WordThenRest(words[0], rest);
      assert rest[1..] == Join(words[1..]);
      assert words == [words[0]] + words[1..];
    }
  }

  /** Two names count as the same exactly when their words agree up to case. */
  lemma SameNameMeansSameWords(a: string, b: string)
    ensures NormalizeName(a) == NormalizeName(b) <==> Words(UpperAll(a)) == Words(UpperAll(b))
  {
    WordsAreWords(UpperAll(a));
    WordsAreWords(UpperAll(b));
    WordsOfJoin(Words(UpperAll(a)));
    WordsOfJoin(Words(UpperAll(b)));
  }
}
