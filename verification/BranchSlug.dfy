/** Branch slugs: making one from any text, and checking one. */
module BranchSlug {
  import opened Sequences

  predicate IsAlnum(c: char) { 'a' <= c <= 'z' || '0' <= c <= '9' }

  // ---------------------------------------------------------------------------
  // Validation
  // ---------------------------------------------------------------------------

  datatype Verdict = Valid | Empty | TooLong | BadCharacter | HyphenAtEnd | DoubleHyphen

  const MAX_BRANCH_LENGTH: nat := 100

  predicate IsBranchChar(c: char) { IsAlnum(c) || c == '-' || c == '/' }

  predicate AllBranchChars(s: string) { forall i :: 0 <= i < |s| ==> IsBranchChar(s[i]) }

  predicate HasDoubleHyphen(s: string) { exists i :: 0 < i < |s| && s[i - 1] == '-' && s[i] == '-' }

  function ValidateBranchSlug(slug: string): Verdict {
    if slug == "" then Empty
    else if |slug| > MAX_BRANCH_LENGTH then TooLong
    else if !AllBranchChars(slug) then BadCharacter
    else if slug[0] == '-' || slug[|slug| - 1] == '-' then HyphenAtEnd
    else if HasDoubleHyphen(slug) then DoubleHyphen
    else Valid
  }

  // ---------------------------------------------------------------------------
  // Slugs
  // ---------------------------------------------------------------------------

  const MAX_SLUG_LENGTH: nat := 50

  /**
   * Lower case, as far as the slug can tell: two letters outside ASCII have ASCII lower-case
   * forms; every other one stays outside `a-z0-9`, and is kept here as it is.
   */
  function LowerChar(c: char): string {
    if 'A' <= c <= 'Z' then [(c as int + 32) as char]
    else if c == '\U{212a}' then "k"
    else if c == '\U{130}' then "i\U{307}"
    else [c]
  }

  function Lower(s: string): string {
    if s == "" then "" else LowerChar(s[0]) + Lower(s[1..])
  }

  /** The text from its first letter or digit on. */
  function SkipOthers(s: string): (r: string)
    ensures |r| <= |s|
  {
    if s != "" && !IsAlnum(s[0]) then SkipOthers(s[1..]) else s
  }

  /** Every run of other characters becomes one hyphen. */
  function Collapse(s: string): string
    decreases |s|
  {
    if s == "" then ""
    else if IsAlnum(s[0]) then [s[0]] + Collapse(s[1..])
    else "-" + Collapse(SkipOthers(s[1..]))
  }

  function TrimStart(s: string): string {
    if s != "" && s[0] == '-' then TrimStart(s[1..]) else s
  }

  function TrimEnd(s: string): string {
    if s != "" && s[|s| - 1] == '-' then TrimEnd(s[..|s| - 1]) else s
  }

  function FullSlug(input: string): string {
    TrimEnd(TrimStart(Collapse(Lower(input))))
  }

  /** A long slug is cut, preferably at a hyphen in the second half of what fits. */
  function Truncate(slug: string): string
    requires |slug| > MAX_SLUG_LENGTH
  {
    var truncated := slug[..MAX_SLUG_LENGTH];
    match LastIndexOf(truncated, '-')
    case None => TrimEnd(truncated)
    case Some(lastHyphen) => if lastHyphen > MAX_SLUG_LENGTH / 2 then truncated[..lastHyphen] else TrimEnd(truncated)
  }

  function Slugify(input: string): string {
    var slug := FullSlug(input);
    if |slug| <= MAX_SLUG_LENGTH then slug else Truncate(slug)
  }

  // ---------------------------------------------------------------------------
  // The words of a text
  // ---------------------------------------------------------------------------

  function WordLength(s: string): (n: nat)
    ensures n <= |s| && forall i :: 0 <= i < n ==> IsAlnum(s[i])
    ensures n < |s| ==> !IsAlnum(s[n])
  {
    if s != "" && IsAlnum(s[0]) then 1 + WordLength(s[1..]) else 0
  }

  /** The maximal runs of letters and digits. */
  function Words(s: string): seq<string>
    decreases |s|
  {
    if s == "" then []
    else if !IsAlnum(s[0]) then Words(s[1..])
    else [s[..WordLength(s)]] + Words(s[WordLength(s)..])
  }

  /** Words joined by hyphens. */
  function Spell(words: seq<string>): string {
    if words == [] then ""
    else if |words| == 1 then words[0]
    else words[0] + "-" + Spell(words[1..])
  }

  predicate AreWords(words: seq<string>) {
    forall i :: 0 <= i < |words| ==> words[i] != "" && forall k :: 0 <= k < |words[i]| ==> IsAlnum(words[i][k])
  }

  predicate SlugChars(s: string) {
    forall i :: 0 <= i < |s| ==> IsAlnum(s[i]) || s[i] == '-'
  }

  /** The shape of a slug: letters and digits, with single hyphens between them. */
  predicate Tidy(s: string) {
    s != "" && SlugChars(s) && s[0] != '-' && s[|s| - 1] != '-' && !HasDoubleHyphen(s)
  }

  lemma {:induction false} WordsAreWords(s: string)
    ensures AreWords(Words(s))
    decreases |s|
  {
    if s != "" {
      if IsAlnum(s[0]) {
        WordsAreWords(s[WordLength(s)..]);
      } else {
        WordsAreWords(s[1..]);
      }
    }
  }

  lemma {:induction false} SpellIsTidy(words: seq<string>)
    requires AreWords(words) && words != []
    ensures Tidy(Spell(words))
  {
    var w := words[0];
    assert w != "" && forall k :: 0 <= k < |w| ==> IsAlnum(w[k]);
    if |words| > 1 {
      SpellIsTidy(words[1..]);
      TidyConcat(w, Spell(words[1..]));
    }
  }

  lemma TidyConcat(word: string, rest: string)
    requires word != "" && (forall k :: 0 <= k < |word| ==> IsAlnum(word[k])) && Tidy(rest)
    ensures Tidy(word + "-" + rest)
  {
    var s := word + "-" + rest;
    assert forall i :: 0 <= i < |word| ==> s[i] == word[i];
    assert s[|word|] == '-' && forall i :: |word| < i < |s| ==> s[i] == rest[i - |word| - 1];
  }

  lemma {:induction false} NoWords(s: string)
    requires Words(s) == []
    ensures forall i :: 0 <= i < |s| ==> !IsAlnum(s[i])
  {
    if s != "" {
      NoWords(s[1..]);
      assert forall i :: 0 < i < |s| ==> s[i] == s[1..][i - 1];
    }
  }

  lemma {:induction false} SkippingKeepsWords(s: string)
    ensures Words(SkipOthers(s)) == Words(s)
    ensures SkipOthers(s) != "" ==> IsAlnum(SkipOthers(s)[0]) && SkipOthers(s)[|SkipOthers(s)| - 1] == s[|s| - 1]
    ensures SkipOthers(s) == "" ==> Words(s) == []
  {
    if s != "" && !IsAlnum(s[0]) {
      SkippingKeepsWords(s[1..]);
    }
  }

  lemma {:induction false} CollapseWord(s: string, n: nat)
    requires n <= |s| && forall i :: 0 <= i < n ==> IsAlnum(s[i])
    ensures Collapse(s) == s[..n] + Collapse(s[n..])
    decreases n
  {
    if n > 0 {
      var rest := s[1..];
      CollapseWord(rest, n - 1);
      assert Collapse(s) == [s[0]] + Collapse(rest);
      hide Collapse;
      assert rest[n - 1..] == s[n..] && s[..n] == [s[0]] + rest[..n - 1];
      Assoc([s[0]], rest[..n - 1], Collapse(s[n..]));
    }
  }

  function Lead(s: string): string { if s != "" && !IsAlnum(s[0]) then "-" else "" }

  function Trail(s: string): string {
    if Words(s) != [] && s != "" && !IsAlnum(s[|s| - 1]) then "-" else ""
  }

  lemma SpellWord(word: string, words: seq<string>)
    ensures Spell([word] + words) == if words == [] then word else word + "-" + Spell(words)
  {
    assert ([word] + words)[1..] == words;
  }

  lemma SpellNothing()
    ensures Spell([]) == ""
  {
  }

  lemma WordsSkip(s: string)
    requires s != "" && !IsAlnum(s[0])
    ensures Words(s) == Words(SkipOthers(s[1..]))
    ensures Trail(s) == Trail(SkipOthers(s[1..]))
  {
    var tail := s[1..];
    SkippingKeepsWords(tail);
    assert Words(s) == Words(tail);
    assert Words("") == [];
    hide Words, SkipOthers, IsAlnum;
    assert tail != "" ==> s[|s| - 1] == tail[|tail| - 1];
  }

  lemma LeadSkip(s: string)
    ensures Lead(SkipOthers(s)) == ""
  {
    SkippingKeepsWords(s);
    hide SkipOthers, Words;
  }

  lemma CollapseOther(s: string)
    requires s != "" && !IsAlnum(s[0])
    ensures var rest := SkipOthers(s[1..]);
            && Collapse(s) == "-" + Collapse(rest) && Words(s) == Words(rest)
            && Lead(s) == "-" && Lead(rest) == "" && Trail(s) == Trail(rest)
  {
    hide Words, Trail, SkipOthers;
    WordsSkip(s);
    LeadSkip(s[1..]);
  }

  lemma WordThenRest(s: string)
    requires s != "" && IsAlnum(s[0])
    ensures var n := WordLength(s);
            && n > 0 && Collapse(s) == s[..n] + Collapse(s[n..]) && Words(s) == [s[..n]] + Words(s[n..])
  {
    CollapseWord(s, WordLength(s));
    hide Collapse;
  }

  lemma EndsOfWord(s: string)
    requires s != "" && IsAlnum(s[0])
    ensures var rest := s[WordLength(s)..];
            && Lead(s) == "" && Lead(rest) == (if rest == "" then "" else "-")
            && Trail(s) == (if rest == "" then "" else if Words(rest) == [] then "-" else Trail(rest))
            && (Words(rest) == [] ==> Trail(rest) == "")
  {
    var rest := s[WordLength(s)..];
    WordThenRest(s);
    if Words(rest) == [] {
      NoWords(rest);
    }
    hide Collapse, Words;
    assert rest != "" ==> rest[|rest| - 1] == s[|s| - 1];
  }

  lemma Glue(word: string, rest: string, spelled: string, trail: string)
    requires rest == "-" + spelled + trail
    ensures word + rest == "" + (word + "-" + spelled) + trail
  {
  }

  /** Collapsing spells the words, with a hyphen where the text goes on at either end. */
  lemma {:induction false} CollapseSpells(s: string)
    ensures Collapse(s) == Lead(s) + Spell(Words(s)) + Trail(s)
    decreases |s|
  {
    if s == "" {
    } else if IsAlnum(s[0]) {
      CollapseFromWord(s);
    } else {
      var rest := SkipOthers(s[1..]);
      CollapseOther(s);
      CollapseSpells(rest);
      hide Words, Collapse, Lead, Trail, Spell, SkipOthers;
      var spelled, trail := Spell(Words(rest)), Trail(rest);
      assert "" + spelled + trail == spelled + trail;
      Assoc("-", spelled, trail);
    }
  }

  lemma {:induction false} CollapseFromWord(s: string)
    requires s != "" && IsAlnum(s[0])
    ensures Collapse(s) == Lead(s) + Spell(Words(s)) + Trail(s)
    decreases |s|, 0
  {
    var n := WordLength(s);
    var word, rest := s[..n], s[n..];
    WordThenRest(s);
    EndsOfWord(s);
    if rest != "" {
      CollapseSpells(rest);
    }
    assert rest == "" ==> Words(rest) == [] && Collapse(rest) == "";
    hide Words, Collapse, Lead, Trail, Spell;
    SpellWord(word, Words(rest));
    if Words(rest) == [] {
      SpellNothing();
      assert "" + word + Trail(s) == word + Trail(s);
      assert Collapse(rest) == Trail(s);
    } else {
      assert rest != "";
      Glue(word, Collapse(rest), Spell(Words(rest)), Trail(rest));
    }
  }

  lemma TrimTidy(lead: string, s: string, trail: string)
    requires (lead == "" || lead == "-") && (trail == "" || trail == "-") && Tidy(s)
    ensures TrimEnd(TrimStart(lead + s + trail)) == s
  {
    var all := lead + s + trail;
    assert TrimStart(all) == s + trail by {
      if lead == "-" {
        assert all[1..] == s + trail;
      } else {
        assert all == s + trail;
      }
      assert (s + trail)[0] == s[0];
    }
    if trail == "-" {
      assert (s + trail)[..|s|] == s && (s + trail)[|s|] == '-';
    } else {
      assert s + trail == s;
    }
  }

  /** The full slug is the words of the lower-cased text, joined by hyphens. */
  lemma FullSlugSpellsWords(input: string)
    ensures FullSlug(input) == Spell(Words(Lower(input)))
    ensures FullSlug(input) == "" || Tidy(FullSlug(input))
  {
    var s := Lower(input);
    CollapseSpells(s);
    WordsAreWords(s);
    if Words(s) == [] {
      assert Collapse(s) == Lead(s);
      assert Lead(s)[..0] == "" && TrimStart(Lead(s)) == "" by {
        if Lead(s) != "" {
          assert Lead(s)[1..] == "";
        }
      }
    } else {
      SpellIsTidy(Words(s));
      hide Words, Collapse, Spell, Tidy;
      TrimTidy(Lead(s), Spell(Words(s)), Trail(s));
    }
  }

  // ---------------------------------------------------------------------------
  // Truncation
  // ---------------------------------------------------------------------------

  /** Where a long slug is cut: at its last hyphen within reach, if that leaves more than half. */
  predicate CutAt(slug: string, n: nat) {
    && n <= MAX_SLUG_LENGTH < |slug|
    && if n < MAX_SLUG_LENGTH
       then n > MAX_SLUG_LENGTH / 2 && slug[n] == '-' && '-' !in slug[n + 1..MAX_SLUG_LENGTH]
       else '-' !in slug[MAX_SLUG_LENGTH / 2 + 1..MAX_SLUG_LENGTH]
  }

  lemma TidyPrefix(slug: string, n: nat)
    requires Tidy(slug) && 0 < n <= |slug| && slug[n - 1] != '-'
    ensures Tidy(slug[..n])
  {
    assert forall i :: 0 <= i < n ==> slug[..n][i] == slug[i];
  }

  /** Truncating cuts a tidy slug where it should, and leaves it tidy. */
  lemma TruncateCuts(slug: string)
    requires Tidy(slug) && |slug| > MAX_SLUG_LENGTH
    ensures var cut := Truncate(slug);
            Tidy(cut) && CutAt(slug, |cut|) && cut == slug[..|cut|]
  {
    var truncated := slug[..MAX_SLUG_LENGTH];
    var last := LastIndexOf(truncated, '-');
    if last.Some? {
      var k := last.value;
      assert slug[k] == '-' && k > 0 && slug[k - 1] != '-';
      assert truncated[k + 1..] == slug[k + 1..MAX_SLUG_LENGTH];
      if k > MAX_SLUG_LENGTH / 2 {
        TidyPrefix(slug, k);
        assert truncated[..k] == slug[..k];
      } else {
        assert slug[MAX_SLUG_LENGTH / 2 + 1..MAX_SLUG_LENGTH]
            == slug[k + 1..MAX_SLUG_LENGTH][MAX_SLUG_LENGTH / 2 - k..];
        WholeCut(slug);
      }
    } else {
      assert truncated[MAX_SLUG_LENGTH / 2 + 1..] == slug[MAX_SLUG_LENGTH / 2 + 1..MAX_SLUG_LENGTH];
      WholeCut(slug);
    }
  }

  lemma WholeCut(slug: string)
    requires Tidy(slug) && |slug| > MAX_SLUG_LENGTH && '-' !in slug[MAX_SLUG_LENGTH / 2 + 1..MAX_SLUG_LENGTH]
    ensures TrimEnd(slug[..MAX_SLUG_LENGTH]) == slug[..MAX_SLUG_LENGTH] && Tidy(slug[..MAX_SLUG_LENGTH])
  {
    var tail := slug[MAX_SLUG_LENGTH / 2 + 1..MAX_SLUG_LENGTH];
    assert tail[|tail| - 1] == slug[MAX_SLUG_LENGTH - 1];
    assert slug[..MAX_SLUG_LENGTH][MAX_SLUG_LENGTH - 1] == slug[MAX_SLUG_LENGTH - 1] != '-';
    TidyPrefix(slug, MAX_SLUG_LENGTH);
  }

  // ---------------------------------------------------------------------------
  // What slugs are
  // ---------------------------------------------------------------------------

  /** The texts that are slugs. */
  predicate IsSlug(s: string) {
    s == "" || (|s| <= MAX_SLUG_LENGTH && Tidy(s))
  }

  lemma TidyIsValid(s: string)
    requires Tidy(s) && |s| <= MAX_BRANCH_LENGTH
    ensures ValidateBranchSlug(s) == Valid
  {
  }

  /**
   * Slugifying spells the words of the lower-cased text; a result that is too long is cut at a
   * word boundary where one is near enough. The result is empty or a valid branch slug of at most
   * fifty characters.
   */
  lemma SlugifyIsSound(input: string)
    ensures var full, slug := Spell(Words(Lower(input))), Slugify(input);
            && (|full| <= MAX_SLUG_LENGTH ==> slug == full)
            && (|full| > MAX_SLUG_LENGTH ==> CutAt(full, |slug|) && slug == full[..|slug|])
            && IsSlug(slug) && (slug == "" || ValidateBranchSlug(slug) == Valid)
            && (slug == "" <==> Words(Lower(input)) == [])
  {
    FullSlugSpellsWords(input);
    WordsAreWords(Lower(input));
    var words := Words(Lower(input));
    if words != [] {
      SpellIsTidy(words);
    }
    hide FullSlug, Words, Spell, Lower, Tidy;
    var full := FullSlug(input);
    if |full| > MAX_SLUG_LENGTH {
      TruncateCuts(full);
    }
    if Slugify(input) != "" {
      TidyIsValid(Slugify(input));
    }
    SpellNothing();
    assert Tidy(Spell(words)) ==> Spell(words) != "" by { TidyIsFull(Spell(words)); }
    assert Tidy(Slugify(input)) ==> Slugify(input) != "" by { TidyIsFull(Slugify(input)); }
  }

  lemma TidyIsFull(s: string)
    ensures Tidy(s) ==> s != ""
  {
  }

  lemma {:induction false} LowerKeeps(s: string)
    requires SlugChars(s)
    ensures Lower(s) == s
  {
    if s != "" {
      assert SlugChars(s[1..]) by {
        assert forall i :: 0 <= i < |s[1..]| ==> s[1..][i] == s[i + 1];
      }
      LowerKeeps(s[1..]);
    }
  }

  lemma {:induction false} CollapseKeeps(s: string)
    requires SlugChars(s) && !HasDoubleHyphen(s)
    ensures Collapse(s) == s
    decreases |s|
  {
    if s != "" {
      var rest := s[1..];
      assert forall i :: 0 <= i < |rest| ==> rest[i] == s[i + 1];
      assert SlugChars(rest) && !HasDoubleHyphen(rest);
      CollapseKeeps(rest);
      if !IsAlnum(s[0]) {
        assert s[0] == '-' && (rest != "" ==> rest[0] != '-' && IsAlnum(rest[0]));
        assert SkipOthers(rest) == rest;
      }
    }
  }

  /** A text is its own slug exactly when it has the shape of one. */
  lemma SlugifyFixesSlugs(s: string)
    ensures Slugify(s) == s <==> IsSlug(s)
  {
    SlugifyIsSound(s);
    if IsSlug(s) {
      LowerKeeps(s);
      CollapseKeeps(s);
    }
    hide Lower, Collapse, Truncate;
  }

  /** Slugifying twice changes nothing more. */
  lemma SlugifyIsIdempotent(input: string)
    ensures Slugify(Slugify(input)) == Slugify(input)
  {
    SlugifyIsSound(input);
    hide Slugify;
    SlugifyFixesSlugs(Slugify(input));
  }

  /** A valid branch slug without slashes and short enough is left alone by `slugify`. */
  lemma ValidIsFixed(s: string)
    requires ValidateBranchSlug(s) == Valid && '/' !in s
    ensures Slugify(s) == s <==> |s| <= MAX_SLUG_LENGTH
  {
    assert Tidy(s);
    SlugifyFixesSlugs(s);
    hide Slugify;
  }

  // ---------------------------------------------------------------------------
  // Said from the characters
  // ---------------------------------------------------------------------------

  predicate IsCapital(c: char) { 'A' <= c <= 'Z' }

  /** The same character, up to the case of an ASCII letter. */
  predicate SameLetter(a: char, b: char) {
    a == b || (IsCapital(a) && b as int == a as int + 32) || (IsCapital(b) && a as int == b as int + 32)
  }

  lemma {:induction false} SameLower(a: string, b: string)
    requires |a| == |b| && forall i :: 0 <= i < |a| ==> SameLetter(a[i], b[i])
    ensures Lower(a) == Lower(b)
  {
    if a != "" {
      assert SameLetter(a[0], b[0]);
      forall i | 0 <= i < |a| - 1 ensures SameLetter(a[1..][i], b[1..][i]) {
        assert SameLetter(a[i + 1], b[i + 1]);
      }
      SameLower(a[1..], b[1..]);
    }
  }

  /** The case of ASCII letters does not matter. */
  lemma CaseDoesNotMatter(a: string, b: string)
    requires |a| == |b| && forall i :: 0 <= i < |a| ==> SameLetter(a[i], b[i])
    ensures Slugify(a) == Slugify(b)
  {
    SameLower(a, b);
    hide Lower;
  }

  /** A character that becomes a hyphen: no ASCII letter or digit, and not one of the two that lower to such. */
  predicate IsSeparator(c: char) {
    !IsAlnum(c) && !IsCapital(c) && c != '\U{212a}' && c != '\U{130}'
  }

  /** How a character stands in the slug: small letters and digits, the Kelvin sign as `k`, separators as hyphens. */
  predicate Shows(c: char, shown: char) {
    || (IsAlnum(c) && shown == c)
    || (IsCapital(c) && shown as int == c as int + 32)
    || (c == '\U{212a}' && shown == 'k')
    || (IsSeparator(c) && shown == '-')
  }

  /** What lower-casing leaves to the slug. */
  predicate Lowers(c: char, low: char) {
    if IsSeparator(c) then low == c else Shows(c, low)
  }

  lemma {:induction false} LowerShows(s: string)
    requires '\U{130}' !in s
    ensures |Lower(s)| == |s| && forall i :: 0 <= i < |s| ==> Lowers(s[i], Lower(s)[i])
  {
    if s != "" {
      assert s == [s[0]] + s[1..];
      LowerShows(s[1..]);
      forall i | 0 < i < |s| ensures Lowers(s[i], Lower(s)[i]) {
        assert Lowers(s[1..][i - 1], Lower(s[1..])[i - 1]);
      }
    }
  }

  /** Where separators stand alone, collapsing changes each of them and nothing else. */
  lemma {:induction false} CollapseShows(s: string)
    requires forall i :: 0 < i < |s| ==> IsAlnum(s[i - 1]) || IsAlnum(s[i])
    ensures |Collapse(s)| == |s|
    ensures forall i :: 0 <= i < |s| ==> Collapse(s)[i] == if IsAlnum(s[i]) then s[i] else '-'
    decreases |s|
  {
    if s != "" {
      var rest := s[1..];
      assert forall i :: 0 <= i < |rest| ==> rest[i] == s[i + 1];
      CollapseShows(rest);
      assert !IsAlnum(s[0]) ==> SkipOthers(rest) == rest;
      hide SkipOthers;
    }
  }

  /** The text has letters or digits at both ends, and single separators between them. */
  predicate SinglySeparated(s: string) {
    && s != "" && !IsSeparator(s[0]) && !IsSeparator(s[|s| - 1])
    && forall i :: 0 < i < |s| ==> !IsSeparator(s[i - 1]) || !IsSeparator(s[i])
  }

  /** Each character of such a text shows at its own place in the slug. */
  lemma SlugShowsText(s: string)
    requires SinglySeparated(s) && '\U{130}' !in s && |s| <= 50
    ensures |Slugify(s)| == |s| && forall i :: 0 <= i < |s| ==> Shows(s[i], Slugify(s)[i])
  {
    hide Lower, Collapse, IsSeparator;
    LowerShows(s);
    var low := Lower(s);
    forall i | 0 <= i < |s| ensures IsAlnum(low[i]) <==> !IsSeparator(s[i]) {
      LowersToAlnum(s[i], low[i]);
    }
    CollapseShows(low);
    var slug := Collapse(low);
    forall i | 0 <= i < |s| ensures Shows(s[i], slug[i]) {
      LowersToAlnum(s[i], low[i]);
    }
    NothingToTrim(slug);
  }

  lemma LowersToAlnum(c: char, low: char)
    requires Lowers(c, low) && c != '\U{130}'
    ensures IsAlnum(low) <==> !IsSeparator(c)
    ensures IsAlnum(low) ==> Shows(c, low)
    ensures IsSeparator(c) ==> Shows(c, '-')
  {
  }

  lemma NothingToTrim(slug: string)
    requires slug != "" && slug[0] != '-' && slug[|slug| - 1] != '-'
    ensures TrimEnd(TrimStart(slug)) == slug
  {
  }

  /** The other letter that lowers to ASCII becomes two characters, and the second one a separator. */
  lemma DottedCapitalI()
    ensures Slugify("\U{130}X") == "i-x"
  {
    var s, low := "\U{130}X", "i\U{307}x";
    assert s[1..] == "X" && "X"[1..] == "";
    assert Lower("X") == "x";
    assert Lower(s) == "i\U{307}" + Lower(s[1..]) == low;
    hide Lower;
    CollapseShows(low);
    assert Collapse(low) == "i-x";
    hide Collapse;
    assert TrimStart("i-x") == "i-x" && TrimEnd("i-x") == "i-x";
  }

  /** What the validator accepts. */
  lemma ValidExactly(slug: string)
    ensures ValidateBranchSlug(slug) == Valid
       <==> && 1 <= |slug| <= 100
            && (forall i :: 0 <= i < |slug| ==>
                  'a' <= slug[i] <= 'z' || '0' <= slug[i] <= '9' || slug[i] == '-' || slug[i] == '/')
            && slug[0] != '-' && slug[|slug| - 1] != '-'
            && (forall i :: 0 < i < |slug| ==> slug[i - 1] != '-' || slug[i] != '-')
    ensures ValidateBranchSlug(slug) == Empty <==> slug == ""
    ensures ValidateBranchSlug(slug) == TooLong <==> |slug| > 100
  {
  }
}
