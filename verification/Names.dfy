/** Provider job ids: two sanitisers and two id generators, of the worker (cmd/worker/service/handlers.go)
    and of the navigator (internal/navigator/builder.go). */
module Names {
  import opened Runs

  predicate Letter(c: char) {
    'a' <= c <= 'z'
  }

  predicate Alnum(c: char) {
    Letter(c) || '0' <= c <= '9'
  }

  // ----- What a sanitised name is

  /** The lower-case letters and digits, with a hyphen wherever others stand between two of them. */
  function Slug(s: string): string {
    if s == "" then ""
    else
      var before, c := Slug(s[..|s| - 1]), s[|s| - 1];
      if !Alnum(c) then before
      else if before == "" || EndsKept(s[..|s| - 1], Alnum) then before + [c]
      else before + ['-', c]
  }

  function Join(words: seq<string>): string {
    if words == [] then ""
    else if |words| == 1 then words[0]
    else Join(words[..|words| - 1]) + ['-'] + words[|words| - 1]
  }

  /** Letters, digits and single hyphens between them. */
  predicate Clean(s: string) {
    && (forall i :: 0 <= i < |s| ==>
          'a' <= s[i] <= 'z' || '0' <= s[i] <= '9' || (s[i] == '-' && 0 < i < |s| - 1))
    && (forall i, j :: 0 <= i < |s| && j == i + 1 < |s| && s[i] == '-' ==> s[j] != '-')
  }

  lemma SlugNext(s: string, c: char)
    ensures Slug(s + [c]) ==
      if !Alnum(c) then Slug(s)
      else if Slug(s) == "" || EndsKept(s, Alnum) then Slug(s) + [c]
      else Slug(s) + ['-', c]
  {
    assert (s + [c])[..|s|] == s;
  }

  lemma CleanGrows(t: string, c: char)
    requires Clean(t) && Alnum(c)
    ensures Clean(t + [c])
    ensures t != "" ==> Clean(t + ['-', c])
  {
  }

  lemma {:induction false} SlugIsClean(s: string)
    ensures Clean(Slug(s))
    ensures StartsKept(s, Alnum) || EndsKept(s, Alnum) ==> Slug(s) != ""
  {
    if s != "" {
      SlugIsClean(s[..|s| - 1]);
      if Alnum(s[|s| - 1]) {
        CleanGrows(Slug(s[..|s| - 1]), s[|s| - 1]);
      }
    }
  }

  /** Of a clean text, the slug of what has been read so far lacks at most a hyphen at its end. */
  lemma {:induction false} SlugOfPrefix(t: string, n: nat)
    requires Clean(t) && n <= |t|
    ensures Slug(t[..n]) == if n > 0 && t[n - 1] == '-' then t[..n - 1] else t[..n]
  {
    if n > 0 {
      var c := t[n - 1];
      SlugOfPrefix(t, n - 1);
      assert t[..n] == t[..n - 1] + [c];
      SlugNext(t[..n - 1], c);
      assert c == '-' ==> n > 1 && t[n - 2] != '-';
      if n > 1 && t[n - 2] == '-' {
        assert n > 2;
        assert t[..n] == t[..n - 2] + ['-', c];
      }
    }
  }

  /** The fixed points are exactly the clean texts. */
  lemma FixedExactlyWhenClean(s: string)
    ensures Slug(s) == s <==> Clean(s)
  {
    SlugIsClean(s);
    if Clean(s) {
      SlugOfPrefix(s, |s|);
      assert s[..|s|] == s;
    }
  }

  /** The words of a text, joined by hyphens, are its slug. */
  lemma {:induction false} SlugJoinsTheWords(s: string)
    ensures Slug(s) == Join(RunsOf(s, Alnum))
    ensures Slug(s) == "" <==> RunsOf(s, Alnum) == []
  {
    if s != "" {
      var init, c := s[..|s| - 1], s[|s| - 1];
      SlugJoinsTheWords(init);
      RunsAreTheKeptElements(init, Alnum);
      var runs := RunsOf(init, Alnum);
      if Alnum(c) && runs != [] {
        if EndsKept(init, Alnum) {
          var words, last := runs[..|runs| - 1], runs[|runs| - 1];
          assert runs == words + [last];
          JoinGrows(words, last, c);
        } else {
          JoinNext(runs, [c]);
        }
      }
    }
  }

  lemma JoinNext(words: seq<string>, w: string)
    requires words != []
    ensures Join(words + [w]) == Join(words) + (['-'] + w)
  {
    assert (words + [w])[..|words|] == words;
  }

  lemma JoinGrows(init: seq<string>, last: string, c: char)
    ensures Join(init + [last + [c]]) == Join(init + [last]) + [c]
  {
    if init == [] {
      assert init + [last + [c]] == [last + [c]] && init + [last] == [last];
    } else {
      JoinNext(init, last + [c]);
      JoinNext(init, last);
      Regroup(Join(init), last, c);
    }
  }

  lemma Regroup(joined: string, last: string, c: char)
    ensures joined + (['-'] + (last + [c])) == joined + (['-'] + last) + [c]
  {
  }

  predicate OnlyAlnumAndHyphens(s: string) {
    forall i :: 0 <= i < |s| ==> Alnum(s[i]) || s[i] == '-'
  }

  /** strings.ToLower leaves lower-case letters, digits and hyphens alone. */
  ghost predicate LowerIsStable(lower: string -> string) {
    forall s :: OnlyAlnumAndHyphens(s) ==> lower(s) == s
  }

  lemma SanitisingIsIdempotent(lower: string -> string, s: string)
    requires LowerIsStable(lower)
    ensures Slug(lower(Slug(lower(s)))) == Slug(lower(s))
  {
    var slug := Slug(lower(s));
    SlugIsClean(lower(s));
    CleanIsStable(slug);
    assert lower(slug) == slug;
    FixedExactlyWhenClean(slug);
  }

  lemma CleanIsStable(s: string)
    requires Clean(s)
    ensures OnlyAlnumAndHyphens(s)
  {
  }

  // ----- The two sanitisers

  function TrimRight(s: string): string {
    if s != "" && s[|s| - 1] == '-' then TrimRight(s[..|s| - 1]) else s
  }

  function TrimLeft(s: string): string {
    if s != "" && s[0] == '-' then TrimLeft(s[1..]) else s
  }

  function Trim(s: string): string {
    TrimRight(TrimLeft(s))
  }

  lemma TrimKeeps(t: string)
    requires Clean(t)
    ensures TrimRight(t) == t && TrimLeft(t) == t && TrimRight(t + ['-']) == t
  {
    assert (t + ['-'])[..|t|] == t;
  }

  lemma TrimFramed(t: string, leading: string, trailing: string)
    requires Clean(t) && t != ""
    requires (leading == "" || leading == ['-']) && (trailing == "" || trailing == ['-'])
    ensures Trim(leading + t + trailing) == t
  {
    TrimKeeps(t);
    var framed := leading + t + trailing;
    if leading == "" {
      assert framed == t + trailing;
      assert framed[0] == t[0];
    } else {
      assert framed[1..] == t + trailing;
      assert (t + trailing)[0] == t[0];
    }
    assert TrimLeft(framed) == t + trailing;
    if trailing == "" {
      assert t + trailing == t;
    }
  }

  /** The worker's sanitising loop. */
  method SanitiseForWorker(lowered: string) returns (sanitized: string)
    ensures sanitized == Slug(lowered)
  {
    var b := "";
    var prevHyphen := false;
    for i := 0 to |lowered|
      invariant prevHyphen <==> Slug(lowered[..i]) != "" && !EndsKept(lowered[..i], Alnum)
      invariant b == if prevHyphen then Slug(lowered[..i]) + ['-'] else Slug(lowered[..i])
    {
      var r := lowered[i];
      assert lowered[..i + 1] == lowered[..i] + [r];
      SlugNext(lowered[..i], r);
      SlugIsClean(lowered[..i]);
      if ('a' <= r <= 'z') || ('0' <= r <= '9') {
        assert Slug(lowered[..i]) + ['-'] + [r] == Slug(lowered[..i]) + ['-', r];
        b := b + [r];
        prevHyphen := false;
      } else if !prevHyphen && |b| > 0 {
        b := b + ['-'];
        prevHyphen := true;
      }
    }
    assert lowered[..|lowered|] == lowered;
    SlugIsClean(lowered);
    TrimKeeps(Slug(lowered));
    sanitized := TrimRight(b);
  }

  /** What the navigator's loop has written: its hyphens at both ends are trimmed afterwards. */
  function Written(s: string): string {
    if s == "" then ""
    else if Slug(s) == "" then ['-']
    else Leading(s) + Slug(s) + Trailing(s)
  }

  function Leading(s: string): string {
    if StartsKept(s, Alnum) then [] else ['-']
  }

  function Trailing(s: string): string {
    if EndsKept(s, Alnum) then [] else ['-']
  }

  lemma WrittenNext(s: string, c: char)
    ensures Written(s + [c]) ==
      if Alnum(c) then Written(s) + [c]
      else if s != "" && !Alnum(s[|s| - 1]) then Written(s)
      else Written(s) + ['-']
  {
    SlugNext(s, c);
    SlugIsClean(s);
    if s == "" {
      assert s + [c] == [c];
    } else if Alnum(c) && Slug(s) != "" {
      KeptNext(Leading(s), Slug(s), c);
    }
  }

  lemma KeptNext(leading: string, slug: string, c: char)
    ensures leading + (slug + [c]) + [] == leading + slug + [] + [c]
    ensures leading + (slug + ['-', c]) + [] == leading + slug + ['-'] + [c]
  {
  }

  lemma WrittenStep(s: string, i: nat)
    requires i < |s|
    ensures Written(s[..i + 1]) ==
      if Alnum(s[i]) then Written(s[..i]) + [s[i]]
      else if i > 0 && !Alnum(s[i - 1]) then Written(s[..i])
      else Written(s[..i]) + ['-']
  {
    assert s[..i + 1] == s[..i] + [s[i]];
    WrittenNext(s[..i], s[i]);
  }

  lemma TrimmedIsSlug(s: string)
    ensures Trim(Written(s)) == Slug(s)
  {
    SlugIsClean(s);
    if s != "" && Slug(s) != "" {
      TrimFramed(Slug(s), Leading(s), Trailing(s));
    } else {
      assert ['-'][1..] == "";
    }
  }

  /** The navigator's sanitiseLabel. */
  method SanitiseLabel(lower: string -> string, text: string) returns (r: string)
    ensures r == Slug(lower(text))
  {
    var s := lower(text);
    var b := "";
    var prevHyphen := false;
    for i := 0 to |s|
      invariant prevHyphen <==> i > 0 && !Alnum(s[i - 1])
      invariant b == Written(s[..i])
    {
      var c := s[i];
      WrittenStep(s, i);
      if ('a' <= c <= 'z') || ('0' <= c <= '9') {
        b := b + [c];
        prevHyphen := false;
      } else {
        if !prevHyphen {
          b := b + ['-'];
          prevHyphen := true;
        }
      }
    }
    assert s[..|s|] == s;
    TrimmedIsSlug(s);
    r := Trim(b);
  }
}
