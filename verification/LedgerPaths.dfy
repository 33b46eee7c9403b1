/**
 * The shapes a ledger accepts for slugs, branches and feature directories (internal/autodev/ledger.go, workspace.go).
 */
module LedgerPaths {
  import opened Common
  import Slug

  predicate IsControl(c: char) {
    c < '\U{20}' || c == '\U{7F}'
  }

  predicate NoControls(s: string) {
    forall i :: 0 <= i < |s| ==> !IsControl(s[i])
  }

  /** One relative path component: already trimmed, no separators, neither `.` nor `..`, no control characters. */
  predicate ValidComponent(s: string) {
    s != "" && Trim(s) == s && '/' !in s && '\\' !in s && s != "." && s != ".." && NoControls(s)
  }

  /** Segments between slashes; there is always at least one. */
  function Segments(s: string): (r: seq<string>)
    ensures |r| > 0
  {
    if s == [] then [[]]
    else
      var init := Segments(s[..|s| - 1]);
      if s[|s| - 1] == '/' then init + [[]] else init[|init| - 1 := init[|init| - 1] + [s[|s| - 1]]]
  }

  /** A branch is a relative ref without empty, `.` or `..` segments; below `auto/` it is one component. */
  predicate ValidBranch(s: string) {
    && Trim(s) == s
    && '\\' !in s
    && (forall segment <- Segments(s) :: segment != "" && segment != "." && segment != "..")
    && NoControls(s)
    && ("auto/" <= s ==> ValidComponent(s[5..]))
  }

  predicate IsNameChar(c: char) {
    'A' <= c <= 'Z' || 'a' <= c <= 'z' || '0' <= c <= '9' || c in "._-"
  }

  const SPECS := ".codexspec/specs/"

  predicate ValidFeatureName(s: string) {
    s != "" && s[0] !in "._-" && forall i :: 0 <= i < |s| ==> IsNameChar(s[i])
  }

  predicate ValidFeatureDir(s: string) {
    SPECS <= s && ValidFeatureName(s[|SPECS|..])
  }

  lemma SegmentsLast(s: string, c: char)
    ensures Segments(s + [c]) ==
            if c == '/' then Segments(s) + [[]]
            else Segments(s)[|Segments(s)| - 1 := Segments(s)[|Segments(s)| - 1] + [c]]
  {
    assert (s + [c])[..|s|] == s;
  }

  lemma {:induction false} SegmentsWithoutSlash(prefix: string, s: string)
    requires '/' !in s
    ensures Segments(prefix + ['/'] + s) == Segments(prefix) + [s]
  {
    hide *;
    var start := prefix + ['/'];
    if s == [] {
      SegmentsLast(prefix, '/');
      ConcatEmpty(start);
    } else {
      var init, c := s[..|s| - 1], s[|s| - 1];
      assert init + [c] == s;
      SegmentsWithoutSlash(prefix, init);
      SegmentsLast(start + init, c);
      ConcatAssociates(start, init, [c]);
      assert (Segments(prefix) + [init])[|Segments(prefix)| := init + [c]] == Segments(prefix) + [s];
    }
  }

  lemma TrimmedEnds(s: string)
    requires s != ""
    ensures Trim(s) == s <==> !IsSpace(s[0]) && !IsSpace(s[|s| - 1])
  {
    if Trim(s) == s {
    } else if !IsSpace(s[0]) {
      assert TrimLeft(s) == s;
    }
  }

  /** Every slug the program makes is a valid component, */
  lemma KebabIsComponent(s: string)
    requires Slug.Kebab(s) && s != ""
    ensures ValidComponent(s)
  {
    TrimmedEnds(s);
  }

  /** and the branch named after a valid component is a valid branch. */
  lemma AutoBranchValid(name: string)
    requires ValidComponent(name)
    ensures ValidBranch("auto" + ['/'] + name)
  {
    var s := "auto" + ['/'] + name;
    TrimmedEnds(name);
    assert s[|s| - 1] == name[|name| - 1] && s[0] == 'a';
    TrimmedEnds(s);
    assert s[5..] == name;
    SegmentsWithoutSlash("auto", name);
    OneSegment("auto");
    forall i | 0 <= i < |s| ensures !IsControl(s[i]) && s[i] != '\\' {
      if i >= 5 {
        assert s[i] == name[i - 5];
      }
    }
  }

  lemma {:induction false} OneSegment(s: string)
    requires '/' !in s
    ensures Segments(s) == [s]
  {
    if s != [] {
      OneSegment(s[..|s| - 1]);
      assert s[..|s| - 1] + [s[|s| - 1]] == s;
    }
  }

  /** A numbered worktree name stays a valid component. */
  lemma NumberedComponentValid(slug: string, i: nat)
    requires ValidComponent(slug)
    ensures ValidComponent(Slug.Numbered(slug, i))
  {
    var s := Slug.Numbered(slug, i);
    TrimmedEnds(slug);
    assert s[0] == slug[0] && s[|s| - 1] in Itoa(i);
    TrimmedEnds(s);
    forall k | 0 <= k < |s| ensures !IsControl(s[k]) && s[k] != '\\' && s[k] != '/' {
      if k < |slug| {
        assert s[k] == slug[k];
      } else if k > |slug| {
        assert s[k] in Itoa(i);
      }
    }
  }
}
