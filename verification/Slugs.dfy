/** The two channel-name slugs: the one used when a channel is created
    (project_spaces/binding_service.py) and the one used when a channel name is looked up
    (project_spaces/binding_repository.py). */
module Slugs {
  import opened PyText

  /** The class kept by the pattern `[^a-z0-9]+`. */
  predicate IsSlugChar(c: char) {
    'a' <= c <= 'z' || '0' <= c <= '9'
  }

  /** `re.sub(r"[^a-z0-9]+", "-", s)`: every maximal run of other characters becomes one hyphen.
      `inRun` says that the hyphen of the current run has been written. */
  function SubRuns(s: string, inRun: bool): (r: string)
    ensures forall i :: 0 <= i < |r| ==> IsSlugChar(r[i]) || r[i] == '-'
    ensures NoDouble(r)
    ensures inRun && r != [] ==> r[0] != '-'
    ensures |r| <= |s|
  {
    if s == [] then []
    else if IsSlugChar(s[0]) then [s[0]] + SubRuns(s[1..], false)
    else if inRun then SubRuns(s[1..], true)
    else ['-'] + SubRuns(s[1..], true)
  }

  predicate NoDouble(s: string) {
    forall i :: 0 < i < |s| ==> !(s[i - 1] == '-' && s[i] == '-')
  }

  predicate AllHyphens(s: string) {
    forall i :: 0 <= i < |s| ==> s[i] == '-'
  }

  function SkipHyphens(s: string, i: nat): (r: nat)
    requires i <= |s|
    ensures i <= r <= |s|
    ensures forall k :: i <= k < r ==> s[k] == '-'
    ensures r < |s| ==> s[r] != '-'
    decreases |s| - i
  {
    if i < |s| && s[i] == '-' then SkipHyphens(s, i + 1) else i
  }

  function DropHyphens(s: string, n: nat): (r: nat)
    requires n <= |s|
    ensures r <= n
    ensures forall k :: r <= k < n ==> s[k] == '-'
    ensures r > 0 ==> s[r - 1] != '-'
  {
    if n > 0 && s[n - 1] == '-' then DropHyphens(s, n - 1) else n
  }

  /** `s.strip("-")`. */
  function StripHyphens(s: string): (r: string)
    ensures NoEdgeHyphen(r)
  {
    var left, right := SkipHyphens(s, 0), DropHyphens(s, |s|);
    if left < right then s[left..right] else []
  }

  predicate NoEdgeHyphen(s: string) {
    s != [] ==> s[0] != '-' && s[|s| - 1] != '-'
  }

  /** Hyphens added at either end do not change the stripped string. */
  lemma StripHyphensFrame(left: string, s: string, right: string)
    requires AllHyphens(left) && AllHyphens(right)
    ensures StripHyphens(left + s + right) == StripHyphens(s)
  {
    hide SkipHyphens, DropHyphens;
    var t := left + s + right;
    var l, r := SkipHyphens(s, 0), DropHyphens(s, |s|);
    var l', r' := SkipHyphens(t, 0), DropHyphens(t, |t|);
    forall k | 0 <= k < |t| && !(|left| + l <= k < |left| + r) ensures t[k] == '-' {
      assert t[k] == if k < |left| then left[k] else if k < |left| + |s| then s[k - |left|]
                     else right[k - |left| - |s|];
    }
    if l < r {
      assert t[|left| + l] == s[l] != '-' && t[|left| + r - 1] == s[r - 1] != '-';
      assert l' == |left| + l && r' == |left| + r;
      assert t[l'..r'] == s[l..r];
    }
  }

  /** The slug inside `_slugify_channel_name`, before the prefix and the truncation. */
  function CreationSlug(name: string): string {
    StripHyphens(SubRuns(Lower(name), false))
  }

  /** `f"project-{slug}"[:100]`. */
  function ChannelName(slug: string): (r: string)
    ensures |r| <= 100
  {
    var full := "project-" + slug;
    if |full| <= 100 then full else full[..100]
  }

  /** `_slugify_channel_name`. */
  function SlugifyChannelName(name: string): string {
    ChannelName(CreationSlug(name))
  }

  /** `s.replace("--", "-")`: non-overlapping, left to right. */
  function ReplaceDouble(s: string): (r: string)
    ensures |r| <= |s|
    ensures !NoDouble(s) ==> |r| < |s|
  {
    if |s| >= 2 && s[0] == '-' && s[1] == '-' then ['-'] + ReplaceDouble(s[2..])
    else if s == [] then []
    else
      assert !NoDouble(s) ==> !NoDouble(s[1..]) by {
        if !NoDouble(s) {
          var i :| 0 < i < |s| && s[i - 1] == '-' && s[i] == '-';
          assert s[1..][i - 2] == '-' && s[1..][i - 1] == '-';
        }
      }
      [s[0]] + ReplaceDouble(s[1..])
  }

  /** Every run of hyphens shortened to one. */
  function Collapse(s: string): (r: string)
    ensures r == [] <==> s == []
    ensures s != [] ==> r[0] == s[0]
    ensures NoDouble(r)
  {
    if s == [] then []
    else if |s| >= 2 && s[0] == '-' && s[1] == '-' then Collapse(s[1..])
    else [s[0]] + Collapse(s[1..])
  }

  lemma {:induction false} CollapseAfterReplace(s: string)
    ensures Collapse(ReplaceDouble(s)) == Collapse(s)
    ensures s != [] ==> ReplaceDouble(s) != [] && ReplaceDouble(s)[0] == s[0]
  {
    if |s| >= 2 && s[0] == '-' && s[1] == '-' {
      CollapseAfterReplace(s[2..]);
      CollapseHyphenCons(ReplaceDouble(s[2..]));
      CollapseHyphenCons(s[2..]);
      assert s[1..] == ['-'] + s[2..];
    } else if s != [] {
      CollapseAfterReplace(s[1..]);
      var t := ReplaceDouble(s[1..]);
      assert ([s[0]] + t)[1..] == t;
    }
  }

  lemma CollapseHyphenCons(t: string)
    ensures Collapse(['-'] + t) == if t != [] && t[0] == '-' then Collapse(t) else ['-'] + Collapse(t)
  {
    assert (['-'] + t)[1..] == t;
  }

  lemma {:induction false} CollapseOfNoDouble(s: string)
    requires NoDouble(s)
    ensures Collapse(s) == s
  {
    if s != [] {
      NoDoubleTail(s);
      CollapseOfNoDouble(s[1..]);
    }
  }

  /** The repository's `while "--" in slug` loop, on any string. */
  method CollapseHyphens(s: string) returns (slug: string)
    ensures slug == Collapse(s)
  {
    slug := s;
    while !NoDouble(slug)
      invariant Collapse(slug) == Collapse(s)
      decreases |slug|
    {
      CollapseAfterReplace(slug);
      slug := ReplaceDouble(slug);
    }
    CollapseOfNoDouble(slug);
  }

  /** The slug `find_by_channel_name` computes for one project name. */
  function LookupSlug(name: string): string {
    StripHyphens(Collapse(SubRuns(Lower(Strip(name)), false)))
  }

  predicate NoSlugChar(s: string) {
    forall i :: 0 <= i < |s| ==> !IsSlugChar(s[i])
  }

  lemma {:induction false} SubRunsLeading(a: string, s: string)
    requires NoSlugChar(a)
    ensures SubRuns(a + s, true) == SubRuns(s, true)
  {
    if a == [] {
      assert a + s == s;
    } else {
      assert (a + s)[1..] == a[1..] + s;
      SubRunsLeading(a[1..], s);
    }
  }

  lemma {:induction false} SubRunsTrailing(s: string, b: string, inRun: bool)
    requires NoSlugChar(b)
    ensures SubRuns(s + b, inRun) == SubRuns(s, inRun) || SubRuns(s + b, inRun) == SubRuns(s, inRun) + "-"
  {
    if s == [] {
      assert s + b == b;
      SubRunsLeading(b, []);
      assert b + [] == b;
      if b != [] {
        SubRunsLeading(b[1..], []);
        assert b[1..] + [] == b[1..];
      }
    } else {
      assert (s + b)[1..] == s[1..] + b;
      SubRunsTrailing(s[1..], b, if IsSlugChar(s[0]) then false else true);
    }
  }

  /** Separators around a text never show in its slug. */
  lemma SlugIgnoresOuterSeparators(a: string, s: string, b: string)
    requires NoSlugChar(a) && NoSlugChar(b)
    ensures StripHyphens(SubRuns(a + s + b, false)) == StripHyphens(SubRuns(s, false))
  {
    hide StripHyphens;
    SubRunsTrailing(a + s, b, false);
    StripHyphensFrame("", SubRuns(a + s, false), "-");
    StripHyphensFrame("", SubRuns(a + s, false), "");
    StripRunFlag(a, s);
    assert a + s + b == (a + s) + b;
    assert "" + SubRuns(a + s, false) + "-" == SubRuns(a + s, false) + "-";
  }

  lemma StripRunFlag(a: string, s: string)
    requires NoSlugChar(a)
    ensures StripHyphens(SubRuns(a + s, false)) == StripHyphens(SubRuns(s, false))
  {
    hide StripHyphens, IsSlugChar;
    if a == [] {
      assert a + s == s;
    } else {
      assert a + s == [a[0]] + (a[1..] + s);
      SubRunsLeading(a[1..], s);
      StripFirstHyphen(SubRuns(s, true));
      StripStart(s);
    }
  }

  lemma StripFirstHyphen(r: string)
    ensures StripHyphens(['-'] + r) == StripHyphens(r)
  {
    StripHyphensFrame("-", r, "");
    assert "-" + r + "" == ['-'] + r;
  }

  lemma StripStart(s: string)
    ensures StripHyphens(SubRuns(s, false)) == StripHyphens(SubRuns(s, true))
  {
    hide StripHyphens, IsSlugChar;
    if s != [] && !IsSlugChar(s[0]) {
      StripFirstHyphen(SubRuns(s, true));
    }
  }

  lemma {:induction false} LowerOfSpace(s: string)
    requires AllSpace(s)
    ensures Lower(s) == s && NoSlugChar(s)
  {
    if s != [] {
      LowerOfSpace(s[1..]);
    }
  }

  predicate AllSpace(s: string) {
    forall i :: 0 <= i < |s| ==> IsSpace(s[i])
  }

  lemma StripSplits(name: string) returns (a: string, b: string)
    ensures AllSpace(a) && AllSpace(b) && name == a + Strip(name) + b
  {
    hide IsSpace;
    var left, right := SkipSpace(name, 0), DropSpace(name, |name|);
    if left < right {
      a, b := name[..left], name[right..];
    } else {
      a, b := name, [];
    }
  }

  /** The two slug implementations agree on every project name. */
  lemma SlugsAgree(name: string)
    ensures LookupSlug(name) == CreationSlug(name)
  {
    hide StripHyphens, IsSpace, SubRuns, Collapse, Strip;
    var a, b := StripSplits(name);
    var core := Strip(name);
    LowerOfSpace(a);
    LowerOfSpace(b);
    LowerConcat(a + core, b);
    LowerConcat(a, core);
    SlugIgnoresOuterSeparators(a, Lower(core), b);
    CollapseOfNoDouble(SubRuns(Lower(core), false));
  }

  /** The maximal runs of slug characters of `word + s`, in order, where `word` is the run being
      read: an independent account of what a slug is made of. */
  function Words(s: string, word: string): (words: seq<string>)
    ensures word != [] ==> words != []
    ensures forall i :: 0 <= i < |words| ==> words[i] != []
  {
    var done := if word == [] then [] else [word];
    if s == [] then done
    else if IsSlugChar(s[0]) then Words(s[1..], word + [s[0]])
    else done + Words(s[1..], [])
  }

  function JoinHyphen(words: seq<string>): (r: string)
    ensures words != [] && words[0] != [] ==> r != []
  {
    if words == [] then []
    else if |words| == 1 then words[0]
    else words[0] + "-" + JoinHyphen(words[1..])
  }

  predicate SlugChars(s: string) {
    forall i :: 0 <= i < |s| ==> IsSlugChar(s[i])
  }

  lemma StripOfNoEdge(s: string)
    requires NoEdgeHyphen(s)
    ensures StripHyphens(s) == s
  {
    assert s != [] ==> SkipHyphens(s, 0) == 0 && DropHyphens(s, |s|) == |s|;
  }

  lemma StripIsSlice(s: string) returns (l: nat, r: nat)
    ensures l <= r <= |s| && StripHyphens(s) == s[l..r]
    ensures s != [] && s[0] != '-' ==> l == 0 && r > 0 && AllHyphens(s[r..])
  {
    l, r := SkipHyphens(s, 0), DropHyphens(s, |s|);
    if l >= r {
      l, r := 0, 0;
    }
  }

  /** A closed word, its hyphen and the stripped rest. */
  lemma StripAfterWord(word: string, rest: string)
    requires word != [] && SlugChars(word) && (rest != [] ==> rest[0] != '-')
    ensures StripHyphens(word + "-" + rest)
         == AfterWord(word, StripHyphens(rest))
  {
    hide StripHyphens, IsSlugChar;
    var l, end := StripIsSlice(rest);
    var core := rest[l..end];
    if rest == [] {
      StripHyphensFrame("", word, "-");
      assert "" + word + "-" == word + "-" + rest;
      StripOfWord(word);
    } else {
      StripHyphensFrame("", word + "-" + core, rest[end..]);
      assert "" + (word + "-" + core) + rest[end..] == word + "-" + rest;
      StripOfWord(word);
      WordNoEdge(word, core);
      StripOfNoEdge(word + "-" + core);
    }
  }

  lemma StripOfWord(word: string)
    requires SlugChars(word)
    ensures StripHyphens(word) == word
  {
    StripOfNoEdge(word);
  }

  lemma WordNoEdge(word: string, core: string)
    requires word != [] && SlugChars(word) && core != [] && NoEdgeHyphen(core)
    ensures NoEdgeHyphen(word + "-" + core)
  {
  }

  function AfterWord(word: string, rest: string): string {
    if word == [] then rest else if rest == [] then word else word + "-" + rest
  }

  /** The slug of a finished word followed by a separator and more text. */
  lemma SlugAfterWord(word: string, s: string)
    requires SlugChars(word) && s != [] && !IsSlugChar(s[0])
    ensures StripHyphens(word + SubRuns(s, false)) == AfterWord(word, StripHyphens(SubRuns(s[1..], false)))
  {
    hide StripHyphens, IsSlugChar;
    var r := SubRuns(s[1..], true);
    StripStart(s[1..]);
    assert word + SubRuns(s, false) == word + "-" + r;
    if word == [] {
      StripFirstHyphen(r);
      assert word + "-" + r == ['-'] + r;
    } else {
      StripAfterWord(word, r);
    }
  }

  lemma JoinCons(word: string, words: seq<string>)
    requires word != [] && forall i :: 0 <= i < |words| ==> words[i] != []
    ensures JoinHyphen([word] + words) == AfterWord(word, JoinHyphen(words))
  {
    assert ([word] + words)[1..] == words;
  }

  lemma {:induction false} SlugIsJoinedWords(s: string, word: string)
    requires SlugChars(word)
    ensures StripHyphens(word + SubRuns(s, false)) == JoinHyphen(Words(s, word))
    decreases |s|
  {
    hide StripHyphens, IsSlugChar, JoinHyphen;
    if s == [] {
      StripOfWord(word);
      JoinOfWord(word);
      assert word + [] == word;
    } else if IsSlugChar(s[0]) {
      SlugIsJoinedWords(s[1..], word + [s[0]]);
      assert word + SubRuns(s, false) == (word + [s[0]]) + SubRuns(s[1..], false);
    } else {
      SlugIsJoinedWords(s[1..], []);
      assert [] + SubRuns(s[1..], false) == SubRuns(s[1..], false);
      SlugAfterWord(word, s);
      if word != [] {
        JoinCons(word, Words(s[1..], []));
      }
      assert [] + Words(s[1..], []) == Words(s[1..], []);
    }
  }

  lemma JoinOfWord(word: string)
    ensures JoinHyphen([]) == [] && JoinHyphen([word]) == word
  {
  }

  /** The slug of a project name is its lower-case alphanumeric words joined by single hyphens. */
  lemma CreationSlugIsWords(name: string)
    ensures CreationSlug(name) == JoinHyphen(Words(Lower(name), []))
  {
    hide StripHyphens;
    SlugIsJoinedWords(Lower(name), []);
    assert [] + SubRuns(Lower(name), false) == SubRuns(Lower(name), false);
  }

  /** Lower-case alphanumerics and hyphens, no double hyphen, no hyphen at an edge. */
  predicate IsSlug(s: string) {
    && (forall i :: 0 <= i < |s| ==> IsSlugChar(s[i]) || s[i] == '-')
    && NoDouble(s) && NoEdgeHyphen(s)
  }

  lemma CreationSlugIsSlug(name: string)
    ensures IsSlug(CreationSlug(name))
  {
    hide StripHyphens, SubRuns, Lower;
    var runs := SubRuns(Lower(name), false);
    var l, r := StripIsSlice(runs);
    assert forall i :: 0 <= i < r - l ==> runs[l..r][i] == runs[l + i];
  }

  lemma {:induction false} SubRunsOfSlug(s: string, inRun: bool)
    requires forall i :: 0 <= i < |s| ==> IsSlugChar(s[i]) || s[i] == '-'
    requires NoDouble(s) && (inRun && s != [] ==> s[0] != '-')
    ensures SubRuns(s, inRun) == s
  {
    hide NoDouble;
    if s != [] {
      NoDoubleTail(s);
      SubRunsOfSlug(s[1..], s[0] == '-');
    }
  }

  lemma NoDoubleTail(s: string)
    requires s != [] && NoDouble(s)
    ensures NoDouble(s[1..])
    ensures s[0] == '-' && |s| > 1 ==> s[1] != '-'
  {
    assert forall i :: 0 < i < |s[1..]| ==> s[1..][i - 1] == s[i] && s[1..][i] == s[i + 1];
  }

  /** Slugifying is idempotent. */
  lemma SlugIdempotent(name: string)
    ensures CreationSlug(CreationSlug(name)) == CreationSlug(name)
  {
    var slug := CreationSlug(name);
    CreationSlugIsSlug(name);
    LowerKeeps(slug);
    SubRunsOfSlug(slug, false);
    StripOfNoEdge(slug);
  }

  /** Normalising a created channel name for the lookup leaves it as it is. */
  lemma ChannelNameIsNormal(name: string)
    ensures SlugifyChannelName(name) != []
    ensures Lower(Strip(SlugifyChannelName(name))) == SlugifyChannelName(name)
  {
    hide CreationSlug, Strip, Lower;
    CreationSlugIsSlug(name);
    var channel := SlugifyChannelName(name);
    assert forall i :: 0 <= i < |channel| ==> IsSlugChar(channel[i]) || channel[i] == '-';
    LowerKeeps(channel);
    StripOfTrimmed(channel);
  }

  lemma {:induction false} LowerKeeps(s: string)
    requires forall i :: 0 <= i < |s| ==> IsSlugChar(s[i]) || s[i] == '-'
    ensures Lower(s) == s
  {
    if s != [] {
      LowerKeeps(s[1..]);
    }
  }

  /** What of a slug fits into a channel name. */
  function Kept(slug: string): string {
    if |slug| <= 92 then slug else slug[..92]
  }

  /** Two projects get the same channel name exactly if their slugs agree in the first 92 characters. */
  lemma ChannelNamesMeetIff(a: string, b: string)
    ensures SlugifyChannelName(a) == SlugifyChannelName(b) <==> Kept(CreationSlug(a)) == Kept(CreationSlug(b))
    ensures "project-" <= SlugifyChannelName(a)
  {
    hide CreationSlug;
    NameIsPrefixed(CreationSlug(a));
    NameIsPrefixed(CreationSlug(b));
    hide ChannelName, Kept;
    assert ("project-" + Kept(CreationSlug(a)))[8..] == Kept(CreationSlug(a));
    assert ("project-" + Kept(CreationSlug(b)))[8..] == Kept(CreationSlug(b));
  }

  lemma NameIsPrefixed(slug: string)
    ensures ChannelName(slug) == "project-" + Kept(slug)
  {
  }
}
