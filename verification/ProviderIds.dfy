/** The provider job ids that the worker (cmd/worker/service/handlers.go) and the navigator
    (internal/navigator/builder.go) make, against the grammar of Batch job ids. */
module ProviderIds {
  import opened Wrappers
  import opened Runs
  import opened Names

  /** ^[a-z]([a-z0-9-]{0,62}[a-z0-9])?$ */
  predicate Grammar(id: string) {
    && id != "" && 'a' <= id[0] <= 'z'
    && (|id| > 1 ==>
          && |id| - 2 <= 62
          && (forall i :: 0 < i < |id| - 1 ==> 'a' <= id[i] <= 'z' || '0' <= id[i] <= '9' || id[i] == '-')
          && ('a' <= id[|id| - 1] <= 'z' || '0' <= id[|id| - 1] <= '9'))
  }

  predicate NoDoubledHyphen(id: string) {
    forall i, j :: 0 <= i < |id| && j == i + 1 < |id| && id[i] == '-' ==> id[j] != '-'
  }

  predicate AllAlnum(s: string) {
    forall i :: 0 <= i < |s| ==> Alnum(s[i])
  }

  predicate NotHyphen(c: char) {
    c != '-'
  }

  /** strings.ReplaceAll(s, "-", "") */
  function WithoutHyphens(s: string): string {
    Kept(s, NotHyphen)
  }

  lemma {:induction false} NoHyphensLeft(s: string)
    ensures forall i :: 0 <= i < |WithoutHyphens(s)| ==> WithoutHyphens(s)[i] != '-'
  {
    if s != "" {
      NoHyphensLeft(s[..|s| - 1]);
      var before, last := WithoutHyphens(s[..|s| - 1]), s[|s| - 1];
      assert WithoutHyphens(s) == if last == '-' then before else before + [last];
    }
  }

  /** Nothing but the hyphens goes: what stands before, between and after them is kept as it is. */
  lemma {:induction false} OnlyHyphensGo(a: string, b: string)
    ensures '-' !in a ==> WithoutHyphens(a) == a
    ensures WithoutHyphens(a + "-" + b) == WithoutHyphens(a + b) == WithoutHyphens(a) + WithoutHyphens(b)
  {
    if a != "" {
      OnlyHyphensGo(a[..|a| - 1], "");
      assert a == a[..|a| - 1] + [a[|a| - 1]];
    }
    if b == "" {
      assert a + b == a && (a + "-" + b)[..|a|] == a;
    } else {
      OnlyHyphensGo(a, b[..|b| - 1]);
      assert (a + b)[..|a + b| - 1] == a + b[..|b| - 1];
      assert (a + "-" + b)[..|a + "-" + b| - 1] == a + "-" + b[..|b| - 1];
    }
  }

  const PREFIX := "jennah-"

  // ----- The worker

  /** The name part: at most 55 characters, starting with a letter. */
  function WorkerName(lowered: string): string {
    var slug := Slug(lowered);
    var named := if slug == "" || !Letter(slug[0]) then ['j'] + slug else slug;
    if |named| > 55 then TrimRight(named[..55]) else named
  }

  /** None if the job id has fewer than eight characters besides hyphens, where taking the first eight panics. */
  function WorkerId(lower: string -> string, name: string, jobID: string): Option<string> {
    var raw := WithoutHyphens(jobID);
    if |raw| < 8 then None
    else if name == "" then Some(PREFIX + lower(raw[..8]))
    else Some(WorkerName(lower(name)) + ['-'] + raw[..8])
  }

  method GenerateWorkerId(lower: string -> string, name: string, jobID: string) returns (id: Option<string>)
    ensures id == WorkerId(lower, name, jobID)
  {
    var raw := WithoutHyphens(jobID);
    if |raw| < 8 {
      return None;
    }
    var shortID := raw[..8];
    if name == "" {
      return Some(PREFIX + lower(shortID));
    }
    var sanitized := SanitiseForWorker(lower(name));
    if |sanitized| == 0 || sanitized[0] < 'a' || sanitized[0] > 'z' {
      sanitized := ['j'] + sanitized;
    }
    var suffix := ['-'] + shortID;
    var maxNameLen := 64 - |suffix|;
    if |sanitized| > maxNameLen {
      sanitized := TrimRight(sanitized[..maxNameLen]);
    }
    assert sanitized + suffix == sanitized + ['-'] + shortID;
    return Some(sanitized + suffix);
  }

  /** Cutting a clean text and trimming what is left keeps it clean. */
  lemma CutIsClean(t: string, n: nat)
    requires Clean(t) && 0 < n <= |t|
    ensures Clean(TrimRight(t[..n]))
    ensures TrimRight(t[..n]) == if t[n - 1] == '-' then t[..n - 1] else t[..n]
  {
    SlugOfPrefix(t, n);
    SlugIsClean(t[..n]);
    if t[n - 1] == '-' {
      assert t[..n] == t[..n - 1] + ['-'];
      TrimKeeps(t[..n - 1]);
    }
  }

  lemma PrefixedIsClean(slug: string)
    requires Clean(slug)
    ensures Clean(['j'] + slug)
  {
    var t := ['j'] + slug;
    forall i | 0 <= i < |t|
      ensures Alnum(t[i]) || (t[i] == '-' && 0 < i < |t| - 1)
    {
      assert i > 0 ==> t[i] == slug[i - 1];
    }
    forall i, j | 0 <= i < |t| && j == i + 1 < |t| && t[i] == '-'
      ensures t[j] != '-'
    {
      assert t[i] == slug[i - 1] && t[j] == slug[j - 1];
    }
  }

  lemma WorkerNameIsClean(lowered: string)
    ensures var n := WorkerName(lowered); 0 < |n| <= 55 && Clean(n) && Letter(n[0])
  {
    var slug := Slug(lowered);
    SlugIsClean(lowered);
    PrefixedIsClean(slug);
    var named := if slug == "" || !Letter(slug[0]) then ['j'] + slug else slug;
    if |named| > 55 {
      CutIsClean(named, 55);
    }
  }

  /** The id of a named job is as much of the lower-cased name as fits, then a hyphen and the short id:
      only what exceeds 55 characters is cut, and a hyphen there. An unnamed one has the fixed prefix. */
  lemma WorkerNameKeepsWhatFits(lower: string -> string, name: string, jobID: string)
    requires |WithoutHyphens(jobID)| >= 8
    ensures var slug, short := Slug(lower(name)), WithoutHyphens(jobID)[..8];
      var named := if slug != "" && 'a' <= slug[0] <= 'z' then slug else "j" + slug;
      var kept := WorkerName(lower(name));
      && WorkerId(lower, name, jobID) == Some(if name == "" then "jennah-" + lower(short) else kept + "-" + short)
      && kept <= named
      && (|named| <= 55 ==> kept == named)
      && (|named| > 55 ==> |kept| == if named[54] == '-' then 54 else 55)
  {
    var slug := Slug(lower(name));
    SlugIsClean(lower(name));
    PrefixedIsClean(slug);
    var named := if slug == "" || !Letter(slug[0]) then ['j'] + slug else slug;
    if |named| > 55 {
      CutIsClean(named, 55);
    }
  }

  lemma NamedParts(name: string, suffix: string)
    requires 0 < |name| <= 55 && Clean(name) && Letter(name[0])
    requires |suffix| == 8 && forall i :: 0 <= i < 8 ==> suffix[i] != '-'
    ensures var id := name + ['-'] + suffix;
      && NoDoubledHyphen(id) && id[|id| - 8..] == suffix
      && (Grammar(id) <==> AllAlnum(suffix))
  {
    var id, n := name + ['-'] + suffix, |name|;
    assert forall i :: 0 <= i < n ==> id[i] == name[i];
    assert forall i :: 0 <= i < 8 ==> id[n + 1 + i] == suffix[i];
    assert id[n] == '-' && name[n - 1] != '-';
    forall i | n < i < |id|
      ensures id[i] != '-'
    {
      assert id[i] == suffix[i - n - 1];
    }
    if AllAlnum(suffix) {
      forall i | 0 <= i < |id|
        ensures Alnum(id[i]) || id[i] == '-'
      {
        if i > n {
          assert id[i] == suffix[i - n - 1];
        }
      }
    }
  }

  /** For every name: no doubled hyphen, the short id at the end, and the grammar is met exactly when the
      short id consists of lower-case letters and digits, since it alone is not lower-cased. */
  lemma NamedIdMeetsGrammarExactlyWhen(lower: string -> string, name: string, jobID: string)
    requires name != "" && |WithoutHyphens(jobID)| >= 8
    ensures WorkerId(lower, name, jobID).Some?
    ensures var id, short := WorkerId(lower, name, jobID).value, WithoutHyphens(jobID)[..8];
      && NoDoubledHyphen(id) && |id| >= 8 && id[|id| - 8..] == short
      && (Grammar(id) <==> AllAlnum(short))
  {
    WorkerNameIsClean(lower(name));
    NoHyphensLeft(jobID);
    NamedParts(WorkerName(lower(name)), WithoutHyphens(jobID)[..8]);
  }

  lemma UnnamedParts(suffix: string)
    requires 0 < |suffix| <= 57 && AllAlnum(suffix)
    ensures var id := PREFIX + suffix; Grammar(id) && NoDoubledHyphen(id) && id[7..] == suffix
  {
    var id := PREFIX + suffix;
    assert forall i :: 7 <= i < |id| ==> id[i] == suffix[i - 7];
  }

  /** Every id made from a job id like a UUID's is a Batch job id that ends in the short id. */
  lemma WorkerIdMeetsGrammar(lower: string -> string, name: string, jobID: string)
    requires LowerIsStable(lower) && |WithoutHyphens(jobID)| >= 8 && AllAlnum(WithoutHyphens(jobID)[..8])
    ensures WorkerId(lower, name, jobID).Some?
    ensures var id := WorkerId(lower, name, jobID).value;
      Grammar(id) && NoDoubledHyphen(id) && |id| >= 8 && id[|id| - 8..] == WithoutHyphens(jobID)[..8]
  {
    if name == "" {
      UnnamedParts(WithoutHyphens(jobID)[..8]);
    } else {
      NamedIdMeetsGrammarExactlyWhen(lower, name, jobID);
    }
  }

  /** Jobs with different short ids get different provider ids, whatever their names. */
  lemma ShortIdsNeverCollide(lower: string -> string, name: string, jobID: string, otherName: string, otherJob: string)
    requires LowerIsStable(lower)
    requires |WithoutHyphens(jobID)| >= 8 && AllAlnum(WithoutHyphens(jobID)[..8])
    requires |WithoutHyphens(otherJob)| >= 8 && AllAlnum(WithoutHyphens(otherJob)[..8])
    requires WorkerId(lower, name, jobID) == WorkerId(lower, otherName, otherJob)
    ensures WithoutHyphens(jobID)[..8] == WithoutHyphens(otherJob)[..8]
  {
    WorkerIdMeetsGrammar(lower, name, jobID);
    WorkerIdMeetsGrammar(lower, otherName, otherJob);
  }

  // ----- The navigator

  function NavigatorSuffix(lower: string -> string, uuid: string, name: string): string {
    var raw := WithoutHyphens(uuid);
    if name != "" then Slug(lower(name)) else if |raw| > 8 then raw[..8] else raw
  }

  /** The first 63 characters of prefix and suffix. */
  function NavigatorId(lower: string -> string, uuid: string, name: string): string {
    var id := PREFIX + NavigatorSuffix(lower, uuid, name);
    if |id| > 63 then id[..63] else id
  }

  method GenerateNavigatorId(lower: string -> string, uuid: string, name: string) returns (id: string)
    ensures id == NavigatorId(lower, uuid, name)
  {
    var suffix;
    if name != "" {
      suffix := SanitiseLabel(lower, name);
    } else {
      var raw := WithoutHyphens(uuid);
      if |raw| > 8 {
        raw := raw[..8];
      }
      suffix := raw;
    }
    id := PREFIX + suffix;
    if |id| > 63 {
      id := id[..63];
    }
  }

  /** A fixed prefix, then the slug of the lower-cased name, or the first eight characters of the job
      id without its hyphens; together cut at 63 characters and nowhere else. */
  lemma NavigatorIdKeepsWhatFits(lower: string -> string, uuid: string, name: string)
    ensures var id, raw := NavigatorId(lower, uuid, name), WithoutHyphens(uuid);
      && (name != "" ==>
            && id <= "jennah-" + Slug(lower(name))
            && |id| == if |Slug(lower(name))| > 56 then 63 else 7 + |Slug(lower(name))|)
      && (name == "" && |raw| >= 8 ==> id == "jennah-" + raw[..8])
      && (name == "" && |raw| < 8 ==> id == "jennah-" + raw)
  {
    var raw := WithoutHyphens(uuid);
    assert |raw| == 8 ==> raw[..8] == raw;
  }

  /** The ids of the navigator stay within 63 lower-case letters, digits and hyphens, as documented, but
      one meets the grammar exactly when its name has a letter or digit and the cut does not leave a
      hyphen at the end. */
  lemma NavigatorIdMeetsGrammarExactlyWhen(lower: string -> string, uuid: string, name: string)
    requires name != ""
    ensures var id, slug := NavigatorId(lower, uuid, name), Slug(lower(name));
      && |id| <= 63 && OnlyAlnumAndHyphens(id)
      && (Grammar(id) <==> slug != "" && (|slug| <= 56 || slug[55] != '-'))
  {
    var slug := Slug(lower(name));
    SlugIsClean(lower(name));
    var id := NavigatorId(lower, uuid, name);
    assert forall i :: 7 <= i < |id| ==> id[i] == slug[i - 7];
    assert forall i :: 0 <= i < 7 ==> id[i] == PREFIX[i];
  }

  /** Without a name, exactly when the job id starts, hyphens aside, with a lower-case letter or digit
      and has no others among its first eight characters. */
  lemma UnnamedNavigatorIdMeetsGrammarExactlyWhen(lower: string -> string, uuid: string)
    ensures var suffix := NavigatorSuffix(lower, uuid, "");
      Grammar(NavigatorId(lower, uuid, "")) <==> suffix != "" && AllAlnum(suffix)
  {
    var suffix, id := NavigatorSuffix(lower, uuid, ""), NavigatorId(lower, uuid, "");
    NoHyphensLeft(uuid);
    assert id == PREFIX + suffix;
    if suffix != "" && AllAlnum(suffix) {
      UnnamedParts(suffix);
    } else if suffix != "" {
      assert forall i :: 0 <= i < |suffix| ==> id[i + 7] == suffix[i];
    }
  }

  /** A name without letters and digits gives an id that Batch refuses. */
  lemma NavigatorIdCanMissGrammar(lower: string -> string, uuid: string)
    requires lower("!!!") == "!!!"
    ensures NavigatorId(lower, uuid, "!!!") == PREFIX && !Grammar(PREFIX)
  {
    assert Slug("!!!") == "" by {
      SlugNext("!!", '!');
      SlugNext("!", '!');
      SlugNext("", '!');
      assert "!!" + ['!'] == "!!!" && "!" + ['!'] == "!!" && "" + ['!'] == "!";
    }
  }
}
