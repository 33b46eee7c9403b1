/** Slugs for work items (internal/autodev/slug.go). */
module Slug {
  import opened Common

  const MAX_SLUG_LENGTH: nat := 64

  /**
   * Lower case, as far as a slug can tell: besides A to Z only the dotted capital I and the Kelvin
   * sign lower to a letter a slug keeps, and no other character turns into a letter or digit.
   */
  function Lower(title: string): (s: string)
    ensures |s| == |title|
  {
    seq(|title|, i requires 0 <= i < |title| =>
      if 'A' <= title[i] <= 'Z' then title[i] + ('a' - 'A')
      else if title[i] == '\U{130}' then 'i'
      else if title[i] == '\U{212A}' then 'k'
      else title[i])
  }

  /** The case of a title does not matter, and the letters and digits a slug can keep stay. */
  lemma LowerSpells(title: string, i: nat)
    requires i < |title|
    ensures 'A' <= title[i] <= 'Z' ==> IsWord(Lower(title)[i]) && Lower(title)[i] - title[i] == 'a' - 'A'
    ensures IsWord(title[i]) ==> Lower(title)[i] == title[i]
    ensures !('A' <= title[i] <= 'Z') && title[i] !in "\U{130}\U{212A}" ==>
              (IsWord(Lower(title)[i]) <==> IsWord(title[i]))
  {
  }

  predicate IsWord(c: char) {
    'a' <= c <= 'z' || '0' <= c <= '9'
  }

  /**
   * What a slug derived from a title looks like: letters, digits and single hyphens between them.
   * Such a text is one path component, and neither `.` nor `..`.
   */
  ghost predicate Kebab(s: string) {
    && (forall i :: 0 <= i < |s| ==> IsWord(s[i]) || s[i] == '-')
    && (forall i :: 0 <= i < |s| - 1 ==> s[i] != '-' || s[i + 1] != '-')
    && (s != [] ==> s[0] != '-' && s[|s| - 1] != '-')
  }

  /** The words of a title in order: its letters and digits. */
  function Words(title: string): string {
    if title == [] then []
    else
      var init := Words(title[..|title| - 1]);
      if IsWord(title[|title| - 1]) then init + [title[|title| - 1]] else init
  }

  /** A hyphen stands exactly where a gap between words begins. */
  function Hyphenated(title: string): (s: string)
    ensures forall i :: 0 <= i < |s| ==> IsWord(s[i]) || s[i] == '-'
    ensures forall i :: 0 <= i < |s| - 1 ==> s[i] != '-' || s[i + 1] != '-'
    ensures s != [] ==> s[0] != '-'
  {
    if title == [] then []
    else
      var init := Hyphenated(title[..|title| - 1]);
      var last := title[|title| - 1];
      if IsWord(last) then init + [last]
      else if init == [] || init[|init| - 1] == '-' then init
      else init + ['-']
  }

  /** Cuts trailing hyphens. */
  function TrimHyphens(s: string): (r: string)
    ensures r <= s
    ensures r == [] || r[|r| - 1] != '-'
  {
    if s != [] && s[|s| - 1] == '-' then TrimHyphens(s[..|s| - 1]) else s
  }

  function KebabOf(lowered: string): (s: string)
    ensures Kebab(s) && |s| <= MAX_SLUG_LENGTH
  {
    var out := TrimHyphens(Hyphenated(lowered));
    if |out| > MAX_SLUG_LENGTH then TrimHyphens(out[..MAX_SLUG_LENGTH]) else out
  }

  /** The words survive hyphenation, in order. */
  lemma {:induction false} HyphenationKeepsWords(title: string)
    ensures Words(Hyphenated(title)) == Words(title)
  {
    if title != [] {
      HyphenationKeepsWords(title[..|title| - 1]);
      var init := Hyphenated(title[..|title| - 1]);
      assert forall c: char :: (init + [c])[..|init|] == init;
    }
  }

  lemma {:induction false} TrimKeepsWords(s: string)
    ensures Words(TrimHyphens(s)) == Words(s)
  {
    if s != [] && s[|s| - 1] == '-' {
      TrimKeepsWords(s[..|s| - 1]);
    }
  }

  lemma {:induction false} WordsPrefix(s: string, t: string)
    requires s <= t
    ensures Words(s) <= Words(t)
    decreases |t|
  {
    if s == t {
    } else {
      assert s <= t[..|t| - 1];
      WordsPrefix(s, t[..|t| - 1]);
    }
  }

  /** A slug's words are the first words of its title, and all of them unless the text was cut. */
  lemma KebabSpellsTitle(lowered: string)
    ensures Words(KebabOf(lowered)) <= Words(lowered)
    ensures |Hyphenated(lowered)| <= MAX_SLUG_LENGTH ==> Words(KebabOf(lowered)) == Words(lowered)
    ensures KebabOf(lowered) == [] <==> Words(lowered) == []
  {
    var full := Hyphenated(lowered);
    var out := TrimHyphens(full);
    HyphenationKeepsWords(lowered);
    TrimKeepsWords(full);
    if |out| > MAX_SLUG_LENGTH {
      TrimKeepsWords(out[..MAX_SLUG_LENGTH]);
      WordsPrefix(out[..MAX_SLUG_LENGTH], out);
    }
    NoWords(out);
    if KebabOf(lowered) != [] {
      WordsPrefix(KebabOf(lowered)[..1], out);
      assert KebabOf(lowered)[..1][..0] == [];
      assert Words(KebabOf(lowered)[..1]) == [KebabOf(lowered)[0]];
    }
  }

  lemma NoWords(out: string)
    requires out != [] ==> IsWord(out[|out| - 1])
    ensures Words(out) == [] <==> out == []
  {
  }

  /** The maximal runs of letters and digits in a text, in order. */
  function Runs(text: string): (r: seq<string>)
    ensures forall i :: 0 <= i < |r| ==> r[i] != ""
    ensures text != [] && IsWord(text[|text| - 1]) ==> r != []
  {
    if text == [] then []
    else
      var n := |text| - 1;
      var before := Runs(text[..n]);
      if !IsWord(text[n]) then before
      else if n > 0 && IsWord(text[n - 1]) then before[..|before| - 1] + [before[|before| - 1] + [text[n]]]
      else before + [[text[n]]]
  }

  /** The runs with one hyphen between each two. */
  function Joined(runs: seq<string>): string {
    if runs == [] then ""
    else if |runs| == 1 then runs[0]
    else Joined(runs[..|runs| - 1]) + "-" + runs[|runs| - 1]
  }

  lemma JoinedMore(runs: seq<string>, run: string)
    ensures Joined(runs + [run]) == if runs == [] then run else Joined(runs) + "-" + run
  {
    assert (runs + [run])[..|runs|] == runs;
  }

  lemma JoinedLonger(runs: seq<string>, c: char)
    requires runs != []
    ensures Joined(runs[..|runs| - 1] + [runs[|runs| - 1] + [c]]) == Joined(runs) + [c]
  {
    var init, last := runs[..|runs| - 1], runs[|runs| - 1];
    assert runs == init + [last];
    JoinedMore(init, last);
    JoinedMore(init, last + [c]);
    if init != [] {
      ConcatAssociates(Joined(init) + "-", last, [c]);
    }
  }

  lemma OneMore(text: string, c: char)
    ensures Hyphenated(text + [c]) ==
            if IsWord(c) then Hyphenated(text) + [c]
            else if Hyphenated(text) == [] || Hyphenated(text)[|Hyphenated(text)| - 1] == '-' then Hyphenated(text)
            else Hyphenated(text) + ['-']
    ensures !IsWord(c) ==> Runs(text + [c]) == Runs(text)
    ensures IsWord(c) ==>
              Joined(Runs(text + [c])) ==
              if text != [] && IsWord(text[|text| - 1]) then Joined(Runs(text)) + [c]
              else if Runs(text) == [] then [c]
              else Joined(Runs(text)) + "-" + [c]
  {
    hide Joined;
    assert (text + [c])[..|text|] == text;
    if IsWord(c) {
      if text != [] && IsWord(text[|text| - 1]) {
        JoinedLonger(Runs(text), c);
      } else {
        JoinedMore(Runs(text), [c]);
      }
    }
  }

  /** The words joined end in a letter or digit; behind them stands a hyphen if something follows. */
  ghost predicate Joins(text: string) {
    var joined := Joined(Runs(text));
    && (Runs(text) == [] ==> joined == "" && (text != [] ==> !IsWord(text[|text| - 1])))
    && (Runs(text) != [] ==> joined != "" && IsWord(joined[|joined| - 1]))
    && Hyphenated(text) == if Runs(text) != [] && !IsWord(text[|text| - 1]) then joined + ['-'] else joined
  }

  lemma JoinsMore(text: string, c: char)
    requires Joins(text)
    ensures Joins(text + [c])
  {
    hide Runs, Joined, Hyphenated;
    OneMore(text, c);
    RunsOf(text, c);
  }

  /** Hyphens stand between the words, and one more behind them where something follows. */
  lemma {:induction false} HyphenatedJoins(text: string)
    ensures Joins(text)
  {
    if text != [] {
      var before, c := text[..|text| - 1], text[|text| - 1];
      HyphenatedJoins(before);
      JoinsMore(before, c);
      assert text == before + [c];
    }
  }

  lemma RunsOf(text: string, c: char)
    ensures IsWord(c) ==> Runs(text + [c]) != []
    ensures Runs(text) != [] ==> text != []
  {
  }

  /** A slug is the title's words joined by hyphens, cut to 64 characters and not at a hyphen. */
  lemma KebabJoinsWords(lowered: string)
    ensures var joined := Joined(Runs(lowered));
            KebabOf(lowered) ==
            if |joined| <= 64 then joined else joined[..if joined[63] == '-' then 63 else 64]
  {
    HyphenatedJoins(lowered);
    var joined, full := Joined(Runs(lowered)), Hyphenated(lowered);
    hide Runs, Joined, Hyphenated;
    TrimmedHyphen(joined);
    assert full == joined || full == joined + ['-'];
    assert TrimHyphens(full) == joined;
    if |joined| > 64 {
      var cut := joined[..64];
      assert cut == cut[..63] + [joined[63]] && cut[..63] == joined[..63];
      assert full[62] == joined[62] && full[63] == joined[63];
      TrimmedHyphen(if joined[63] == '-' then joined[..63] else cut);
    }
  }

  /** Of a text that does not end with a hyphen one more is cut. */
  lemma TrimmedHyphen(s: string)
    requires s != "" ==> s[|s| - 1] != '-'
    ensures TrimHyphens(s) == s && TrimHyphens(s + ['-']) == s
  {
    assert (s + ['-'])[..|s|] == s;
  }

  /** Text that is already a short slug is left alone. */
  lemma KebabFixed(s: string)
    requires Kebab(s) && |s| <= MAX_SLUG_LENGTH
    ensures KebabOf(s) == s
  {
    HyphenatedFixed(s, |s|);
    assert s[..|s|] == s;
  }

  lemma {:induction false} HyphenatedFixed(s: string, n: nat)
    requires Kebab(s) && n <= |s|
    ensures Hyphenated(s[..n]) == s[..n]
  {
    if n > 0 {
      HyphenatedFixed(s, n - 1);
      assert s[..n][..n - 1] == s[..n - 1];
    }
  }

  lemma KebabIdempotent(lowered: string)
    ensures KebabOf(KebabOf(lowered)) == KebabOf(lowered)
  {
    KebabFixed(KebabOf(lowered));
  }

  /** The loop of kebab: `lastHyphen` starts true, which keeps hyphens off the front. */
  method KebabLoop(lowered: string) returns (out: string)
    ensures out == KebabOf(lowered)
  {
    var b: string := [];
    var lastHyphen := true;
    var i := 0;
    while i < |lowered|
      invariant 0 <= i <= |lowered| && b == Hyphenated(lowered[..i])
      invariant lastHyphen <==> b == [] || b[|b| - 1] == '-'
    {
      assert lowered[..i + 1][..i] == lowered[..i];
      if IsWord(lowered[i]) {
        b := b + [lowered[i]];
        lastHyphen := false;
      } else if !lastHyphen {
        b := b + ['-'];
        lastHyphen := true;
      }
      i := i + 1;
    }
    assert lowered[..i] == lowered;
    out := CutHyphens(b);
    if |out| > MAX_SLUG_LENGTH {
      out := CutHyphens(out[..MAX_SLUG_LENGTH]);
    }
  }

  method CutHyphens(s: string) returns (r: string)
    ensures r == TrimHyphens(s)
  {
    r := s;
    while r != [] && r[|r| - 1] == '-'
      invariant TrimHyphens(r) == TrimHyphens(s)
    {
      r := r[..|r| - 1];
    }
  }

  function Base(lowered: string): (s: string)
    ensures Kebab(s) && s != [] && |s| <= MAX_SLUG_LENGTH
  {
    if KebabOf(lowered) == [] then "item" else KebabOf(lowered)
  }

  function Numbered(base: string, i: nat): string {
    base + "-" + Itoa(i)
  }

  lemma NumberedInjective(base: string, i: nat, j: nat)
    requires Numbered(base, i) == Numbered(base, j)
    ensures i == j
  {
    assert Numbered(base, i)[|base| + 1..] == Itoa(i);
    assert Numbered(base, j)[|base| + 1..] == Itoa(j);
    ItoaInjective(i, j);
  }

  lemma NumberedKebab(base: string, i: nat)
    requires Kebab(base) && base != []
    ensures Kebab(Numbered(base, i)) && Numbered(base, i) != base
  {
    var s := Numbered(base, i);
    assert |s| > |base| + 1 && s[|s| - 1] in Itoa(i);
    forall k | 0 <= k < |s| ensures IsWord(s[k]) || s[k] == '-' {
      if k > |base| {
        assert s[k] in Itoa(i);
      }
    }
    forall k | 0 <= k < |s| - 1 ensures s[k] != '-' || s[k + 1] != '-' {
      if k >= |base| {
        assert s[k + 1] in Itoa(i);
      }
    }
  }

  /** The candidates tried before number n. */
  function Tried(base: string, n: nat): (tried: set<string>)
    requires n >= 2
    ensures forall s <- tried :: exists i :: 2 <= i < n && s == Numbered(base, i)
    ensures |tried| == n - 2
  {
    if n == 2 then {}
    else
      var before := Tried(base, n - 1);
      var last := Numbered(base, n - 1);
      assert last !in before by {
        if last in before {
          var i :| 2 <= i < n - 1 && last == Numbered(base, i);
          NumberedInjective(base, i, n - 1);
        }
      }
      before + {last}
  }

  lemma {:induction false} TriedAll(base: string, n: nat, taken: set<string>)
    requires n >= 2 && forall i :: 2 <= i < n ==> Numbered(base, i) in taken
    ensures Tried(base, n) <= taken
  {
    if n > 2 {
      TriedAll(base, n - 1, taken);
    }
  }

  lemma SubsetSize<T>(a: set<T>, b: set<T>)
    requires a <= b
    ensures |a| <= |b|
  {
    assert b == a + (b - a);
  }

  /** Termination of the search: a taken candidate beyond the |taken|-th cannot be. */
  lemma TakenBounds(base: string, i: nat, taken: set<string>)
    requires 2 <= i && forall j :: 2 <= j < i ==> Numbered(base, j) in taken
    ensures i <= |taken| + 2
  {
    TriedAll(base, i, taken);
    SubsetSize(Tried(base, i), taken);
  }

  function LeastFree(base: string, i: nat, taken: set<string>): (n: nat)
    requires 2 <= i && forall j :: 2 <= j < i ==> Numbered(base, j) in taken
    ensures n >= i && Numbered(base, n) !in taken
    ensures forall j :: 2 <= j < n ==> Numbered(base, j) in taken
    decreases |taken| + 2 - i
  {
    if Numbered(base, i) !in taken then i
    else
      TakenBounds(base, i + 1, taken);
      LeastFree(base, i + 1, taken)
  }

  /** The slug of a title: the base if it is free, else the base with the least free number from 2. */
  function SlugOf(lowered: string, taken: set<string>): (slug: string)
    ensures slug !in taken
  {
    if Base(lowered) !in taken then Base(lowered) else Numbered(Base(lowered), LeastFree(Base(lowered), 2, taken))
  }

  /** Every slug has slug shape, and only a disambiguating number takes it past the length limit. */
  lemma SlugShape(lowered: string, taken: set<string>)
    ensures Kebab(SlugOf(lowered, taken)) && SlugOf(lowered, taken) != []
    ensures |SlugOf(lowered, taken)| <= MAX_SLUG_LENGTH + 1 + |Itoa(LeastFree(Base(lowered), 2, taken))|
    ensures LeastFree(Base(lowered), 2, taken) <= |taken| + 2
  {
    var n := LeastFree(Base(lowered), 2, taken);
    NumberedKebab(Base(lowered), n);
    TakenBounds(Base(lowered), n, taken);
  }

  method Slug(title: string, taken: set<string>) returns (slug: string)
    ensures slug == SlugOf(Lower(title), taken)
    ensures var base := if KebabOf(Lower(title)) == "" then "item" else KebabOf(Lower(title));
            if base !in taken then slug == base
            else exists n :: 2 <= n && slug == base + "-" + Itoa(n) && slug !in taken &&
                             forall j :: 2 <= j < n ==> base + "-" + Itoa(j) in taken
  {
    var base := KebabLoop(Lower(title));
    if base == "" {
      base := "item";
    }
    if base !in taken {
      return base;
    }
    var i := 2;
    while true
      invariant 2 <= i && forall j :: 2 <= j < i ==> Numbered(base, j) in taken
      decreases |taken| + 2 - i
    {
      var candidate := Numbered(base, i);
      if candidate !in taken {
        OneLeast(base, i, taken);
        NumbersTaken(base, i, taken);
        return candidate;
      }
      TakenBounds(base, i + 1, taken);
      i := i + 1;
    }
  }

  lemma NumbersTaken(base: string, i: nat, taken: set<string>)
    requires forall j :: 2 <= j < i ==> Numbered(base, j) in taken
    ensures Numbered(base, i) == base + "-" + Itoa(i)
    ensures forall j :: 2 <= j < i ==> base + "-" + Itoa(j) in taken
  {
    forall j | 2 <= j < i ensures base + "-" + Itoa(j) in taken {
      assert Numbered(base, j) in taken;
    }
  }

  lemma OneLeast(base: string, i: nat, taken: set<string>)
    requires 2 <= i && Numbered(base, i) !in taken && forall j :: 2 <= j < i ==> Numbered(base, j) in taken
    ensures LeastFree(base, 2, taken) == i
  {
    var n := LeastFree(base, 2, taken);
    assert Numbered(base, n) !in taken;
  }
}
