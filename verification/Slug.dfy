/** Slugs of applications and the loop that allocates one (internal/applications/service.go). */
module Slugs {
  import opened Basics
  import opened Text
  import opened Validation

  const MAX_SLUG_LEN := 64
  const MAX_NAME_LEN := 255
  const MAX_ATTEMPTS := 5
  const SUFFIX_LEN := 6

  predicate IsSlugChar(c: char) {
    'a' <= c <= 'z' || '0' <= c <= '9'
  }

  predicate IsDash(c: char) {
    c == '-'
  }

  /** strings.ToLower, character by character. */
  function ToLower(s: string, lower: char -> char): (r: string)
    ensures |r| == |s|
    ensures forall i :: 0 <= i < |s| ==> r[i] == lower(s[i])
  {
    seq(|s|, i requires 0 <= i < |s| => lower(s[i]))
  }

  /** Each run of characters outside a-z and 0-9 becomes one dash; `after` says a dash has just been written. */
  function Dashed(s: string, after: bool): string {
    if s == "" then ""
    else if IsSlugChar(s[0]) then [s[0]] + Dashed(s[1..], false)
    else if after then Dashed(s[1..], true)
    else "-" + Dashed(s[1..], true)
  }

  function Truncate(s: string, n: nat): string {
    if |s| <= n then Trim(s, IsDash) else Trim(s[..n], IsDash)
  }

  function Slugify(name: string, lower: char -> char): string {
    var slug := Trim(Dashed(ToLower(TrimSpace(name), lower), false), IsDash);
    Truncate(if slug == "" then "app" else slug, MAX_SLUG_LEN)
  }

  /** Only a-z, 0-9 and single dashes between them. */
  predicate Clean(s: string) {
    && (forall i :: 0 <= i < |s| ==> IsSlugChar(s[i]) || s[i] == '-')
    && (forall i :: 0 <= i < |s| - 1 ==> s[i] != '-' || s[i + 1] != '-')
  }

  predicate NoEndDash(s: string) {
    s != "" && s[0] != '-' && s[|s| - 1] != '-'
  }

  predicate SlugForm(s: string) {
    Clean(s) && NoEndDash(s) && |s| <= MAX_SLUG_LEN
  }

  lemma {:induction false} DashedClean(s: string, after: bool)
    ensures Clean(Dashed(s, after))
    ensures after && Dashed(s, after) != "" ==> Dashed(s, after)[0] != '-'
  {
    if s != "" {
      DashedClean(s[1..], !IsSlugChar(s[0]));
    }
  }

  lemma CleanSlice(s: string, i: nat, j: nat)
    requires Clean(s) && i <= j <= |s|
    ensures Clean(s[i..j])
  {
  }

  lemma TrimIsSlice(s: string, cut: char -> bool)
    ensures exists i, j :: 0 <= i <= j <= |s| && Trim(s, cut) == s[i..j]
  {
    var left := TrimLeft(s, cut);
    var r := TrimRight(left, cut);
    var i := |s| - |left|;
    assert r == left[..|r|] == s[i..i + |r|];
  }

  lemma TrimClean(s: string)
    requires Clean(s)
    ensures Clean(Trim(s, IsDash)) && |Trim(s, IsDash)| <= |s|
    ensures Trim(s, IsDash) != "" ==> NoEndDash(Trim(s, IsDash))
    ensures s != "" && s[0] != '-' ==> Trim(s, IsDash) != ""
  {
    TrimIsSlice(s, IsDash);
    var i, j :| 0 <= i <= j <= |s| && Trim(s, IsDash) == s[i..j];
    CleanSlice(s, i, j);
  }

  /** Cutting a clean text that starts well never empties it, and leaves no dash at the cut. */
  lemma TruncateForm(s: string, n: nat)
    requires Clean(s) && s != "" && s[0] != '-' && n > 0
    ensures Clean(Truncate(s, n)) && NoEndDash(Truncate(s, n)) && |Truncate(s, n)| <= n
  {
    if |s| <= n {
      TrimClean(s);
    } else {
      CleanSlice(s, 0, n);
      TrimClean(s[..n]);
    }
  }

  lemma AppIsClean()
    ensures Clean("app")
  {
  }

  /** Every name has a slug in normal form, whatever lower-casing does. */
  lemma SlugifyForm(name: string, lower: char -> char)
    ensures SlugForm(Slugify(name, lower))
  {
    hide Dashed, ToLower, TrimSpace, Trim, Truncate, Clean;
    AppIsClean();
    var dashed := Dashed(ToLower(TrimSpace(name), lower), false);
    DashedClean(ToLower(TrimSpace(name), lower), false);
    TrimClean(dashed);
    var slug := Trim(dashed, IsDash);
    TruncateForm(if slug == "" then "app" else slug, MAX_SLUG_LEN);
  }

  lemma {:induction false} DashedKeeps(s: string, after: bool)
    requires Clean(s) && (after && s != "" ==> s[0] != '-')
    ensures Dashed(s, after) == s
  {
    if s != "" {
      assert forall i :: 0 <= i < |s[1..]| ==> s[1..][i] == s[i + 1];
      DashedKeeps(s[1..], !IsSlugChar(s[0]));
      assert s == [s[0]] + s[1..];
    }
  }

  /** The normal form is exactly what slugify leaves alone, so slugify is idempotent. */
  lemma FormIsFixed(s: string, lower: char -> char)
    requires forall c :: IsSlugChar(c) || c == '-' ==> lower(c) == c
    ensures SlugForm(s) <==> Slugify(s, lower) == s
    ensures Slugify(Slugify(s, lower), lower) == Slugify(s, lower)
  {
    hide SlugForm;
    SlugifyForm(s, lower);
    FormStays(Slugify(s, lower), lower);
    if SlugForm(s) { FormStays(s, lower); }
  }

  lemma LowerKeeps(s: string, lower: char -> char)
    requires Clean(s) && forall c :: IsSlugChar(c) || c == '-' ==> lower(c) == c
    ensures ToLower(s, lower) == s
  {
  }

  lemma SlugCharIsNoSpace(c: char)
    requires IsSlugChar(c) || c == '-'
    ensures !IsSpace(c)
  {
  }

  lemma FormStays(s: string, lower: char -> char)
    requires SlugForm(s) && forall c :: IsSlugChar(c) || c == '-' ==> lower(c) == c
    ensures Slugify(s, lower) == s
  {
    hide Dashed, ToLower, Trim, IsSpace;
    SlugCharIsNoSpace(s[0]);
    SlugCharIsNoSpace(s[|s| - 1]);
    TrimNothing(s, IsSpace);
    LowerKeeps(s, lower);
    DashedKeeps(s, false);
    TrimNothing(s, IsDash);
  }

  function Letters(s: string): string {
    if s == "" then "" else (if IsSlugChar(s[0]) then [s[0]] else "") + Letters(s[1..])
  }

  lemma {:induction false} LettersOfDashed(s: string, after: bool)
    ensures Letters(Dashed(s, after)) == Letters(s)
  {
    if s != "" {
      LettersOfDashed(s[1..], !IsSlugChar(s[0]));
      var rest := Dashed(s[1..], !IsSlugChar(s[0]));
      assert ("-" + rest)[1..] == rest && ([s[0]] + rest)[1..] == rest;
    }
  }

  lemma {:induction false} LettersOfSum(a: string, b: string)
    ensures Letters(a + b) == Letters(a) + Letters(b)
  {
    if a == "" {
      assert a + b == b;
    } else {
      LettersOfSum(a[1..], b);
      assert (a + b)[1..] == a[1..] + b;
    }
  }

  lemma {:induction false} LettersOfTrimLeft(s: string)
    ensures Letters(TrimLeft(s, IsDash)) == Letters(s)
  {
    if s != "" && s[0] == '-' { LettersOfTrimLeft(s[1..]); }
  }

  lemma {:induction false} LettersOfTrimRight(s: string)
    ensures Letters(TrimRight(s, IsDash)) == Letters(s)
  {
    if s != "" && s[|s| - 1] == '-' {
      var init := s[..|s| - 1];
      LettersOfTrimRight(init);
      LettersOfSum(init, "-");
      assert s == init + "-";
    }
  }

  lemma LettersOfTrim(s: string)
    ensures Letters(Trim(s, IsDash)) == Letters(s)
  {
    hide Letters;
    LettersOfTrimLeft(s);
    LettersOfTrimRight(TrimLeft(s, IsDash));
  }

  lemma LettersOfTruncate(s: string, n: nat)
    ensures Letters(Truncate(s, n)) <= Letters(s)
    ensures |s| <= n ==> Letters(Truncate(s, n)) == Letters(s)
  {
    hide Trim;
    if |s| <= n {
      LettersOfTrim(s);
    } else {
      LettersOfTrim(s[..n]);
      assert s == s[..n] + s[n..];
      LettersOfSum(s[..n], s[n..]);
    }
  }

  /** The slug spells the letters and digits of the lower-cased name, in order, as far as it reaches; "app" only without any. */
  lemma SlugSpellsName(name: string, lower: char -> char)
    ensures var text := ToLower(TrimSpace(name), lower);
            && (Letters(text) == "" ==> Slugify(name, lower) == "app")
            && (Letters(text) != "" ==> Letters(Slugify(name, lower)) <= Letters(text))
            && (|text| <= MAX_SLUG_LEN && Letters(text) != "" ==> Letters(Slugify(name, lower)) == Letters(text))
  {
    hide Trim, TrimSpace, ToLower, Truncate, Letters;
    var text := ToLower(TrimSpace(name), lower);
    var dashed := Dashed(text, false);
    LettersOfDashed(text, false);
    LettersOfTrim(dashed);
    DashedShort(text, false);
    DashedClean(text, false);
    TrimClean(dashed);
    var slug := Trim(dashed, IsDash);
    LettersOfTruncate(slug, MAX_SLUG_LEN);
    EmptyIffNoLetters(slug);
    AppStays();
  }

  lemma {:induction false} DashedShort(s: string, after: bool)
    ensures |Dashed(s, after)| <= |s|
  {
    if s != "" { DashedShort(s[1..], !IsSlugChar(s[0])); }
  }

  lemma EmptyIffNoLetters(s: string)
    requires Clean(s) && (s != "" ==> NoEndDash(s))
    ensures s == "" <==> Letters(s) == ""
  {
  }

  lemma AppStays()
    ensures Truncate("app", MAX_SLUG_LEN) == "app"
  {
    TrimNothing("app", IsDash);
  }

  // ---- words ----

  /** The words of a text: its maximal runs of slug characters. */
  function Words(s: string): (words: seq<string>)
    ensures s != "" && IsSlugChar(s[0]) ==> words != []
  {
    if s == "" then []
    else if !IsSlugChar(s[0]) then Words(s[1..])
    else
      var rest := Words(s[1..]);
      if |s| > 1 && IsSlugChar(s[1]) then [[s[0]] + rest[0]] + rest[1..] else [[s[0]]] + rest
  }

  function Hyphenated(words: seq<string>): string {
    if words == [] then "" else if |words| == 1 then words[0] else words[0] + "-" + Hyphenated(words[1..])
  }

  predicate EndsOutside(s: string) {
    s != "" && !IsSlugChar(s[|s| - 1])
  }

  lemma {:induction false} WordsAreSlugs(s: string)
    ensures forall w :: w in Words(s) ==> w != "" && forall i :: 0 <= i < |w| ==> IsSlugChar(w[i])
  {
    if s != "" { WordsAreSlugs(s[1..]); }
  }

  lemma {:induction false} NoWords(s: string)
    requires Words(s) == []
    ensures forall i :: 0 <= i < |s| ==> !IsSlugChar(s[i])
  {
    if s != "" { NoWords(s[1..]); }
  }

  /** Every gap between two words becomes one dash; a gap at the end leaves one too. */
  lemma {:induction false} DashedIsHyphenated(s: string)
    ensures Dashed(s, true) == Hyphenated(Words(s)) + (if Words(s) != [] && EndsOutside(s) then "-" else "")
  {
    if s != "" {
      var t := s[1..];
      DashedIsHyphenated(t);
      if !IsSlugChar(s[0]) {
        if t == "" { assert Words(s) == []; }
      } else if t == "" {
        OneLetter(s);
      } else {
        hide Dashed, Hyphenated, Words;
        if IsSlugChar(t[0]) { SameWord(s, t); } else { NextWord(s, t); }
      }
    }
  }

  lemma OneLetter(s: string)
    requires |s| == 1 && IsSlugChar(s[0])
    ensures Dashed(s, true) == s && Words(s) == [s] && Hyphenated([s]) == s
  {
    assert s[1..] == "" && [s[0]] == s;
  }

  lemma SameWord(s: string, t: string)
    requires |s| > 1 && t == s[1..] && IsSlugChar(s[0]) && IsSlugChar(t[0])
    ensures Hyphenated(Words(s)) == [s[0]] + Hyphenated(Words(t)) && Words(s) != [] && EndsOutside(s) == EndsOutside(t)
    ensures Dashed(s, true) == [s[0]] + Dashed(t, true)
  {
    var rest := Words(t);
    var words := [[s[0]] + rest[0]] + rest[1..];
    assert Words(s) == words && words[1..] == rest[1..];
  }

  lemma NextWord(s: string, t: string)
    requires |s| > 1 && t == s[1..] && IsSlugChar(s[0]) && !IsSlugChar(t[0])
    ensures Hyphenated(Words(s)) == if Words(t) == [] then [s[0]] else [s[0]] + "-" + Hyphenated(Words(t))
    ensures Words(s) != [] && EndsOutside(s) == EndsOutside(t) && (Words(t) == [] ==> EndsOutside(t))
    ensures Dashed(s, true) == [s[0]] + ("-" + Dashed(t, true))
  {
    var words := [[s[0]]] + Words(t);
    assert Words(s) == words && words[1..] == Words(t);
    if Words(t) == [] { NoWords(t); }
  }

  lemma {:induction false} HyphenatedEnds(words: seq<string>)
    requires forall w :: w in words ==> w != "" && forall i :: 0 <= i < |w| ==> IsSlugChar(w[i])
    ensures words != [] ==> NoEndDash(Hyphenated(words))
    ensures words == [] <==> Hyphenated(words) == ""
  {
    if |words| > 1 {
      HyphenatedEnds(words[1..]);
    }
  }

  lemma DashedStart(s: string)
    ensures Dashed(s, false) == (if s != "" && !IsSlugChar(s[0]) then "-" else "") + Dashed(s, true)
  {
    if s == "" || IsSlugChar(s[0]) { assert "" + Dashed(s, true) == Dashed(s, true); }
  }

  lemma WordsEndWell(s: string)
    ensures var m := Hyphenated(Words(s)); m == "" || (!IsDash(m[0]) && !IsDash(m[|m| - 1]))
    ensures Words(s) == [] <==> Hyphenated(Words(s)) == ""
  {
    WordsAreSlugs(s);
    HyphenatedEnds(Words(s));
  }

  lemma TrimDashed(s: string)
    ensures Trim(Dashed(s, false), IsDash) == Hyphenated(Words(s))
  {
    hide Dashed, Hyphenated, Words, Trim;
    var m := Hyphenated(Words(s));
    var lead := if s != "" && !IsSlugChar(s[0]) then "-" else "";
    var trail := if Words(s) != [] && EndsOutside(s) then "-" else "";
    DashedStart(s);
    DashedIsHyphenated(s);
    WordsEndWell(s);
    assert lead + (m + trail) == lead + m + trail;
    TrimAround(lead, m, trail, IsDash);
  }

  /** How much of a text of words fits: all of it, or the first n characters without a dash at the cut. */
  function Fitting(s: string, n: nat): nat
    requires n > 0
  {
    if |s| <= n then |s| else if s[n - 1] == '-' then n - 1 else n
  }

  lemma TruncateFits(s: string, n: nat)
    requires Clean(s) && NoEndDash(s) && n > 0
    ensures Truncate(s, n) == s[..Fitting(s, n)]
  {
    hide Trim;
    var m := s[..Fitting(s, n)];
    if |s| <= n {
      assert "" + m + "" == s;
      TrimAround("", m, "", IsDash);
    } else if s[n - 1] == '-' {
      assert "" + m + "-" == s[..n];
      TrimAround("", m, "-", IsDash);
    } else {
      assert "" + m + "" == s[..n];
      TrimAround("", m, "", IsDash);
    }
  }

  /**
   * A slug is the words of the lower-cased name with one dash between two of them, as far as 64 characters reach and
   * without a dash at the cut; a name without words gives "app".
   */
  lemma SlugIsItsWords(name: string, lower: char -> char)
    ensures var full := Hyphenated(Words(ToLower(TrimSpace(name), lower)));
            Slugify(name, lower) == if full == "" then "app" else full[..Fitting(full, 64)]
  {
    hide Dashed, Trim, TrimSpace, ToLower, Truncate, Words, Hyphenated, Clean;
    var text := ToLower(TrimSpace(name), lower);
    var full := Hyphenated(Words(text));
    TrimDashed(text);
    AppStays();
    if full != "" {
      DashedClean(text, false);
      TrimClean(Dashed(text, false));
      TruncateFits(full, MAX_SLUG_LEN);
    }
  }

  // ---- allocation ----

  /** randomHex(3). */
  predicate IsSuffix(s: string) {
    |s| == SUFFIX_LEN && forall i :: 0 <= i < |s| ==> '0' <= s[i] <= '9' || 'a' <= s[i] <= 'f'
  }

  type Suffix = s: string | IsSuffix(s) witness "000000"

  function RetrySlug(base: string, suffix: Suffix): string
  {
    Truncate(base, MAX_SLUG_LEN - SUFFIX_LEN - 1) + "-" + suffix
  }

  lemma JoinedForm(a: string, b: string)
    requires Clean(a) && NoEndDash(a) && Clean(b) && NoEndDash(b)
    ensures Clean(a + "-" + b) && NoEndDash(a + "-" + b)
  {
    var s := a + "-" + b;
    forall i | 0 <= i < |s| - 1 ensures s[i] != '-' || s[i + 1] != '-' {
      if i < |a| - 1 {
        assert s[i] == a[i] && s[i + 1] == a[i + 1];
      } else if i > |a| {
        assert s[i] == b[i - |a| - 1] && s[i + 1] == b[i - |a|];
      }
    }
  }

  /** Every retry slug is in normal form again, within the length of the column, and carries its suffix. */
  lemma RetryForm(base: string, suffix: Suffix)
    requires SlugForm(base)
    ensures SlugForm(RetrySlug(base, suffix))
    ensures var r := RetrySlug(base, suffix); r[|r| - SUFFIX_LEN - 1..] == "-" + suffix
  {
    hide Truncate, Clean, NoEndDash;
    TruncateForm(base, MAX_SLUG_LEN - SUFFIX_LEN - 1) by { StartsWell(base); }
    SuffixClean(suffix);
    JoinedForm(Truncate(base, MAX_SLUG_LEN - SUFFIX_LEN - 1), suffix);
  }

  /** A retry slug keeps the base as far as 57 characters reach. */
  lemma RetryKeeps(base: string, suffix: Suffix)
    requires SlugForm(base)
    ensures RetrySlug(base, suffix) == base[..Fitting(base, 57)] + "-" + suffix
  {
    hide Truncate, Clean, NoEndDash;
    TruncateFits(base, MAX_SLUG_LEN - SUFFIX_LEN - 1);
  }

  lemma StartsWell(s: string)
    requires NoEndDash(s)
    ensures s != "" && s[0] != '-'
  {
  }

  lemma SuffixClean(suffix: string)
    requires IsSuffix(suffix)
    ensures Clean(suffix) && NoEndDash(suffix)
  {
  }

  /** Different suffixes give different retry slugs. */
  lemma RetryDistinct(base: string, a: Suffix, b: Suffix)
    requires SlugForm(base) && RetrySlug(base, a) == RetrySlug(base, b)
    ensures a == b
  {
    hide RetrySlug;
    RetryForm(base, a);
    RetryForm(base, b);
    assert ("-" + a)[1..] == a && ("-" + b)[1..] == b;
  }

  /** How an attempt to insert the application and its first key ends, besides a taken slug. */
  datatype Insert = Fits | PrefixTaken | Broken

  datatype Allocation = Allocated(slug: string) | InvalidName | Conflict | Failure

  /** The slug tried at an attempt. */
  function Candidate(base: string, suffixes: seq<Suffix>, attempt: nat): string
    requires |suffixes| == MAX_ATTEMPTS && attempt < MAX_ATTEMPTS
  {
    if attempt == 0 then base else RetrySlug(base, suffixes[attempt])
  }

  predicate Retries(taken: set<string>, slug: string, insert: Insert) {
    insert != Broken && (slug in taken || insert == PrefixTaken)
  }

  /** The first n candidates were refused by a unique index. */
  predicate RefusedBefore(taken: set<string>, base: string, suffixes: seq<Suffix>, inserts: seq<Insert>, n: nat)
    requires |suffixes| == MAX_ATTEMPTS && |inserts| == MAX_ATTEMPTS && n <= MAX_ATTEMPTS
  {
    forall i :: 0 <= i < n ==> Retries(taken, Candidate(base, suffixes, i), inserts[i])
  }

  /** Candidate i is the first that no unique index refuses, and it is inserted. */
  predicate FitsAt(taken: set<string>, base: string, suffixes: seq<Suffix>, inserts: seq<Insert>, i: nat)
    requires |suffixes| == MAX_ATTEMPTS && |inserts| == MAX_ATTEMPTS
  {
    i < MAX_ATTEMPTS && RefusedBefore(taken, base, suffixes, inserts, i)
    && inserts[i] == Fits && Candidate(base, suffixes, i) !in taken
  }

  /** ... or its insert fails for another reason. */
  predicate BreaksAt(taken: set<string>, base: string, suffixes: seq<Suffix>, inserts: seq<Insert>, i: nat)
    requires |suffixes| == MAX_ATTEMPTS && |inserts| == MAX_ATTEMPTS
  {
    i < MAX_ATTEMPTS && RefusedBefore(taken, base, suffixes, inserts, i) && inserts[i] == Broken
  }

  /** What happens at the first candidate that is not refused is all that happens. */
  lemma OnlyOnce(taken: set<string>, base: string, suffixes: seq<Suffix>, inserts: seq<Insert>, i: nat, j: nat)
    requires |suffixes| == MAX_ATTEMPTS && |inserts| == MAX_ATTEMPTS && i < MAX_ATTEMPTS
    requires RefusedBefore(taken, base, suffixes, inserts, i) && !Retries(taken, Candidate(base, suffixes, i), inserts[i])
    ensures FitsAt(taken, base, suffixes, inserts, j) || BreaksAt(taken, base, suffixes, inserts, j) ==> j == i
    ensures !RefusedBefore(taken, base, suffixes, inserts, 5)
  {
    hide Candidate;
  }

  lemma NeverFits(taken: set<string>, base: string, suffixes: seq<Suffix>, inserts: seq<Insert>, j: nat)
    requires |suffixes| == MAX_ATTEMPTS && |inserts| == MAX_ATTEMPTS && RefusedBefore(taken, base, suffixes, inserts, 5)
    ensures !FitsAt(taken, base, suffixes, inserts, j) && !BreaksAt(taken, base, suffixes, inserts, j)
  {
    hide Candidate;
  }

  class Applications {
    var slugs: set<string>

    constructor ()
      ensures slugs == {}
    {
      slugs := {};
    }

    /** createApplicationTx: any unique violation, of the slug or of the key's prefix, looks the same. */
    method CreateApplicationTx(slug: string, insert: Insert) returns (result: Result<(), bool>)
      modifies this
      ensures result.Ok? <==> insert == Fits && slug !in old(slugs)
      ensures result == Err(true) <==> Retries(old(slugs), slug, insert)
      ensures slugs == if result.Ok? then old(slugs) + {slug} else old(slugs)
    {
      if insert == Broken { return Err(false); }
      if slug in slugs || insert == PrefixTaken { return Err(true); }
      slugs := slugs + {slug};
      result := Ok(());
    }

    /**
     * CreateApplication's slug: the first candidate that no unique index refuses, in normal form and not taken before;
     * a conflict only when all five were refused.
     */
    method CreateApplication(name: string, lower: char -> char, suffixes: seq<Suffix>, inserts: seq<Insert>)
      returns (r: Allocation)
      requires |suffixes| == 5 && |inserts| == 5
      modifies this
      ensures r.InvalidName? <==> TrimSpace(name) == "" || Len(TrimSpace(name)) > 255
      ensures r.Allocated? ==> SlugForm(r.slug) && r.slug !in old(slugs) && slugs == old(slugs) + {r.slug}
      ensures !r.Allocated? ==> slugs == old(slugs)
      ensures var base := Slugify(TrimSpace(name), lower);
              !r.InvalidName? ==>
                && (r.Conflict? <==> RefusedBefore(old(slugs), base, suffixes, inserts, 5))
                && (r.Failure? <==> exists i: nat :: BreaksAt(old(slugs), base, suffixes, inserts, i))
                && (r.Allocated? <==> exists i: nat :: FitsAt(old(slugs), base, suffixes, inserts, i))
                && (r.Allocated? ==> exists i: nat :: FitsAt(old(slugs), base, suffixes, inserts, i)
                                       && r.slug == Candidate(base, suffixes, i))
    {
      hide SlugForm, Slugify, Truncate, TrimSpace, IsSuffix, RetrySlug;
      var trimmed := TrimSpace(name);
      if trimmed == "" || Len(trimmed) > MAX_NAME_LEN { return InvalidName; }
      var base := Slugify(trimmed, lower);
      SlugifyForm(trimmed, lower);
      var attempt := 0;
      while attempt < MAX_ATTEMPTS
        invariant 0 <= attempt <= MAX_ATTEMPTS && slugs == old(slugs)
        invariant RefusedBefore(slugs, base, suffixes, inserts, attempt)
      {
        var slug := base;
        if attempt > 0 {
          slug := RetrySlug(base, suffixes[attempt]);
          RetryForm(base, suffixes[attempt]);
        }
        var result := CreateApplicationTx(slug, inserts[attempt]);
        if result.Ok? || !result.error {
          forall j: nat { OnlyOnce(old(slugs), base, suffixes, inserts, attempt, j); }
          assert if result.Ok? then FitsAt(old(slugs), base, suffixes, inserts, attempt)
                 else BreaksAt(old(slugs), base, suffixes, inserts, attempt);
        }
        if result.Ok? { return Allocated(slug); }
        if !result.error { return Failure; }
        attempt := attempt + 1;
      }
      forall j: nat { NeverFits(slugs, base, suffixes, inserts, j); }
      r := Conflict;
    }
  }
}
