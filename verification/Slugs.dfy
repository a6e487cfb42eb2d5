/**
 * Slugs for registrations and conference profiles (generateUniqueSlug in src/registration/registration.service.ts and
 * src/conference-profile/conference-profile.service.ts). The search has no bound in the code; it stops all the same.
 */
module Slugs {
  import opened Common

  // ---- Normalising -----------------------------------------------------------------------

  /** White space and line terminators of ECMAScript, which trim and the class \s share. */
  predicate IsSpace(c: char) {
    || '\t' <= c <= '\r' || c == ' ' || c == '\U{00a0}' || c == '\U{1680}' || '\U{2000}' <= c <= '\U{200a}'
    || c == '\U{2028}' || c == '\U{2029}' || c == '\U{202f}' || c == '\U{205f}' || c == '\U{3000}' || c == '\U{feff}'
  }

  predicate IsWord(c: char) {
    'a' <= c <= 'z' || '0' <= c <= '9'
  }

  function TrimStart(s: string): string {
    if s != "" && IsSpace(s[0]) then TrimStart(s[1..]) else s
  }

  function TrimEnd(s: string): string {
    if s != "" && IsSpace(s[|s| - 1]) then TrimEnd(s[..|s| - 1]) else s
  }

  /** Everything but letters, digits, spaces and dashes goes. */
  function Keep(s: string): string {
    if s == "" then "" else (if IsWord(s[0]) || IsSpace(s[0]) || s[0] == '-' then [s[0]] else "") + Keep(s[1..])
  }

  /** Every run of spaces becomes one dash. */
  function DashSpaces(s: string): string {
    if s == "" then ""
    else if !IsSpace(s[0]) then [s[0]] + DashSpaces(s[1..])
    else if |s| > 1 && IsSpace(s[1]) then DashSpaces(s[1..])
    else "-" + DashSpaces(s[1..])
  }

  /** Every run of dashes becomes one dash. */
  function MergeDashes(s: string): string {
    if s == "" then ""
    else if s[0] == '-' && |s| > 1 && s[1] == '-' then MergeDashes(s[1..])
    else [s[0]] + MergeDashes(s[1..])
  }

  /** `lower` is the lower-casing of the runtime, of which only one thing is ever used. */
  function Slugify(lower: string -> string, s: string): string {
    MergeDashes(DashSpaces(Keep(TrimEnd(TrimStart(lower(s))))))
  }

  /** Letters a to z, digits and dashes are their own lower case. */
  ghost predicate IsLowering(lower: string -> string) {
    forall s :: (forall i | 0 <= i < |s| :: IsWord(s[i]) || s[i] == '-') ==> lower(s) == s
  }

  predicate IsSlug(s: string) {
    && (forall i | 0 <= i < |s| :: IsWord(s[i]) || s[i] == '-')
    && (forall i | 0 <= i < |s| - 1 :: !(s[i] == '-' && s[i + 1] == '-'))
  }

  lemma {:induction false} KeptChars(s: string)
    ensures forall i | 0 <= i < |Keep(s)| :: IsWord(Keep(s)[i]) || IsSpace(Keep(s)[i]) || Keep(s)[i] == '-'
  {
    if s != "" { KeptChars(s[1..]); }
  }

  lemma {:induction false} DashedChars(s: string)
    requires forall i | 0 <= i < |s| :: IsWord(s[i]) || IsSpace(s[i]) || s[i] == '-'
    ensures forall i | 0 <= i < |DashSpaces(s)| :: IsWord(DashSpaces(s)[i]) || DashSpaces(s)[i] == '-'
  {
    if s != "" { DashedChars(s[1..]); }
  }

  lemma {:induction false} MergedIsSlug(s: string)
    requires forall i | 0 <= i < |s| :: IsWord(s[i]) || s[i] == '-'
    ensures IsSlug(MergeDashes(s))
    ensures s != "" ==> MergeDashes(s) != "" && MergeDashes(s)[0] == s[0]
  {
    if s != "" { MergedIsSlug(s[1..]); }
  }

  /** A slug holds letters, digits and single dashes, whatever it was made from, in any alphabet. */
  lemma SlugifyMakesSlugs(lower: string -> string, s: string)
    ensures IsSlug(Slugify(lower, s))
  {
    KeptChars(TrimEnd(TrimStart(lower(s))));
    DashedChars(Keep(TrimEnd(TrimStart(lower(s)))));
    MergedIsSlug(DashSpaces(Keep(TrimEnd(TrimStart(lower(s))))));
  }

  lemma SlugTail(s: string)
    requires IsSlug(s) && s != ""
    ensures IsSlug(s[1..]) && s == [s[0]] + s[1..] && (IsWord(s[0]) || s[0] == '-') && !IsSpace(s[0])
    ensures |s| > 1 ==> !(s[0] == '-' && s[1] == '-')
  {
  }

  lemma {:induction false} KeepStays(s: string)
    requires IsSlug(s)
    ensures Keep(s) == s
  {
    if s != "" {
      SlugTail(s);
      KeepStays(s[1..]);
      hide IsSlug;
    }
  }

  lemma {:induction false} DashesStay(s: string)
    requires IsSlug(s)
    ensures DashSpaces(s) == s && MergeDashes(s) == s
  {
    if s != "" {
      SlugTail(s);
      DashesStay(s[1..]);
      hide IsSlug;
    }
  }

  lemma TrimStays(s: string)
    requires IsSlug(s)
    ensures TrimStart(s) == s && TrimEnd(s) == s
  {
  }

  /** Normalising twice is normalising once. */
  lemma SlugifyIsIdempotent(lower: string -> string, s: string)
    requires IsLowering(lower)
    ensures Slugify(lower, Slugify(lower, s)) == Slugify(lower, s)
  {
    var t := Slugify(lower, s);
    SlugifyMakesSlugs(lower, s);
    assert lower(t) == t;
    KeepStays(t);
    TrimStays(t);
    DashesStay(t);
    hide Keep, DashSpaces, MergeDashes, TrimStart, TrimEnd, IsLowering;
  }

  // ---- One scan --------------------------------------------------------------------------

  /** What the class \s of ECMAScript matches. */
  const WHITE_SPACE: set<char> := {
    '\t', '\n', '\U{000b}', '\U{000c}', '\r', ' ', '\U{00a0}', '\U{1680}', '\U{2000}', '\U{2001}', '\U{2002}',
    '\U{2003}', '\U{2004}', '\U{2005}', '\U{2006}', '\U{2007}', '\U{2008}', '\U{2009}', '\U{200a}', '\U{2028}',
    '\U{2029}', '\U{202f}', '\U{205f}', '\U{3000}', '\U{feff}'
  }

  /**
   * One scan from the left: letters and digits are copied; one dash stands for the white space and dashes between two
   * of them, before the first or after the last, with anything else between; `gap` says that a dash is due.
   */
  function Scan(s: string, gap: bool): string {
    if s == "" then if gap then "-" else ""
    else if 'a' <= s[0] <= 'z' || '0' <= s[0] <= '9' then (if gap then "-" else "") + [s[0]] + Scan(s[1..], false)
    else Scan(s[1..], gap || s[0] == '-' || s[0] in WHITE_SPACE)
  }

  lemma SpacesAreListed(c: char)
    ensures IsSpace(c) <==> c in WHITE_SPACE
    ensures c in WHITE_SPACE ==> !IsWord(c) && c != '-'
  {
  }

  /** `t` is `s` without the white space at its ends. */
  predicate IsTrimmed(s: string, i: nat, j: nat)
    requires i <= j <= |s|
  {
    && (forall k | 0 <= k < i :: s[k] in WHITE_SPACE) && (forall k | j <= k < |s| :: s[k] in WHITE_SPACE)
    && (i < j ==> s[i] !in WHITE_SPACE && s[j - 1] !in WHITE_SPACE)
  }

  lemma {:induction false} TrimStartIs(s: string) returns (i: nat)
    ensures i <= |s| && TrimStart(s) == s[i..] && (forall k | 0 <= k < i :: s[k] in WHITE_SPACE)
    ensures i < |s| ==> s[i] !in WHITE_SPACE
    decreases s
  {
    hide WHITE_SPACE;
    if s != "" { SpacesAreListed(s[0]); }
    if s != "" && IsSpace(s[0]) {
      i := TrimStartIs(s[1..]);
      i := i + 1;
      assert forall k | 1 <= k < i :: s[k] == s[1..][k - 1];
    } else {
      i := 0;
    }
  }

  lemma {:induction false} TrimEndIs(s: string) returns (j: nat)
    ensures j <= |s| && TrimEnd(s) == s[..j] && (forall k | j <= k < |s| :: s[k] in WHITE_SPACE)
    ensures j > 0 ==> s[j - 1] !in WHITE_SPACE
    decreases s
  {
    hide WHITE_SPACE;
    if s != "" { SpacesAreListed(s[|s| - 1]); }
    if s != "" && IsSpace(s[|s| - 1]) {
      j := TrimEndIs(s[..|s| - 1]);
    } else {
      j := |s|;
      assert s[..j] == s;
    }
  }

  function Passes(s: string): string {
    DashSpaces(Keep(s))
  }

  lemma SpacesStartWithADash(s: string)
    requires s != "" && IsSpace(s[0])
    ensures DashSpaces(s) != "" && DashSpaces(s)[0] == '-'
  {
  }

  lemma DashThen(s: string)
    ensures MergeDashes("-" + s) == if s != "" && s[0] == '-' then MergeDashes(s) else "-" + MergeDashes(s)
  {
    assert ("-" + s)[1..] == s;
  }

  /** The passes over a text that begins with `c`. */
  lemma PassesStep(c: char, rest: string)
    ensures IsWord(c) ==> Passes([c] + rest) == [c] + Passes(rest)
    ensures c == '-' ==> Passes([c] + rest) == "-" + Passes(rest)
    ensures IsSpace(c) ==>
      Passes([c] + rest) == "-" + Passes(rest)
      || (Passes([c] + rest) == Passes(rest) && Passes(rest) != "" && Passes(rest)[0] == '-')
    ensures !IsWord(c) && c != '-' && !IsSpace(c) ==> Passes([c] + rest) == Passes(rest)
  {
    var kept := Keep(rest);
    assert ([c] + rest)[1..] == rest && ([c] + kept)[1..] == kept && "" + kept == kept;
    if IsSpace(c) && kept != "" && IsSpace(kept[0]) { SpacesStartWithADash(kept); }
  }

  lemma ScanStep(c: char, rest: string, gap: bool)
    ensures Scan([c] + rest, gap)
      == if IsWord(c) then (if gap then "-" else "") + [c] + Scan(rest, false)
         else Scan(rest, gap || c == '-' || IsSpace(c))
  {
    SpacesAreListed(c);
    assert ([c] + rest)[1..] == rest;
    hide WHITE_SPACE, IsSpace;
  }

  lemma {:induction false} OneScan(s: string)
    ensures Scan(s, false) == MergeDashes(Passes(s))
    ensures Scan(s, true) == MergeDashes("-" + Passes(s))
    decreases s
  {
    if s == "" {
      assert MergeDashes("-") == "-" + MergeDashes("");
    } else {
      var c, rest := s[0], s[1..];
      OneScan(rest);
      SpacesAreListed(c);
      PassesStep(c, rest);
      ScanStep(c, rest, false);
      ScanStep(c, rest, true);
      assert s == [c] + rest;
      DashThen(Passes(rest));
      DashThen(Passes(s));
      if c != '-' { WordThen(c, Passes(rest)); }
      hide Passes, MergeDashes, IsSpace, Scan, WHITE_SPACE;
    }
  }

  lemma WordThen(c: char, s: string)
    requires c != '-'
    ensures MergeDashes([c] + s) == [c] + MergeDashes(s)
  {
    assert ([c] + s)[1..] == s;
  }

  /** The letters and digits of a text, in order. */
  function Words(s: string): string {
    if s == "" then ""
    else (if 'a' <= s[0] <= 'z' || '0' <= s[0] <= '9' then [s[0]] else "") + Words(s[1..])
  }

  lemma {:induction false} ScanKeepsWords(s: string, gap: bool)
    ensures Words(Scan(s, gap)) == Words(s)
    decreases s
  {
    if s == "" {
      assert "-"[1..] == "";
      assert Words("") == "" && Words("-") == "" + Words("");
    } else if 'a' <= s[0] <= 'z' || '0' <= s[0] <= '9' {
      var more := Scan(s[1..], false);
      ScanKeepsWords(s[1..], false);
      assert ([s[0]] + more)[1..] == more && ("-" + ([s[0]] + more))[1..] == [s[0]] + more;
      assert "-" + [s[0]] + more == "-" + ([s[0]] + more);
      assert Words([s[0]] + more) == [s[0]] + Words(more);
    } else {
      ScanKeepsWords(s[1..], gap || s[0] == '-' || s[0] in WHITE_SPACE);
    }
  }

  lemma {:induction false} WordsOfBoth(a: string, b: string)
    ensures Words(a + b) == Words(a) + Words(b)
    decreases a
  {
    if a == "" {
      assert a + b == b;
    } else {
      assert (a + b)[0] == a[0] && (a + b)[1..] == a[1..] + b;
      WordsOfBoth(a[1..], b);
    }
  }

  lemma {:induction false} NoWordsInSpace(s: string)
    requires forall k | 0 <= k < |s| :: s[k] in WHITE_SPACE
    ensures Words(s) == ""
    decreases s
  {
    if s != "" {
      SpacesAreListed(s[0]);
      hide WHITE_SPACE;
      assert forall k | 0 <= k < |s[1..]| :: s[1..][k] == s[k + 1];
      NoWordsInSpace(s[1..]);
    }
  }

  lemma TrimmedWords(s: string, i: nat, j: nat)
    requires i <= j <= |s| && IsTrimmed(s, i, j)
    ensures Words(s[i..j]) == Words(s)
  {
    hide WHITE_SPACE, Words;
    assert s == s[..i] + (s[i..j] + s[j..]);
    WordsOfBoth(s[..i], s[i..j] + s[j..]);
    WordsOfBoth(s[i..j], s[j..]);
    NoWordsInSpace(s[..i]);
    NoWordsInSpace(s[j..]);
  }

  /**
   * Trimming and the three replacements are one scan of the text between the white space at its ends; every letter and
   * digit of the lower-cased text stays, in order.
   */
  lemma SlugifyIsOneScan(lower: string -> string, s: string)
    ensures var t := lower(s);
      exists i, j :: 0 <= i <= j <= |t| && IsTrimmed(t, i, j) && Slugify(lower, s) == Scan(t[i..j], false)
    ensures Words(Slugify(lower, s)) == Words(lower(s))
  {
    var t := lower(s);
    var i := TrimStartIs(t);
    var n := TrimEndIs(t[i..]);
    var j := i + n;
    assert t[i..][..n] == t[i..j];
    assert forall k | j <= k < |t| :: t[k] == t[i..][k - i];
    OneScan(t[i..j]);
    ScanKeepsWords(t[i..j], false);
    TrimmedWords(t, i, j);
  }

  // ---- Decimal numbers -------------------------------------------------------------------

  function Digit(d: nat): char
    requires d < 10
  {
    ('0' as int + d) as char
  }

  function Decimal(n: nat): (s: string)
    ensures s != ""
  {
    if n < 10 then [Digit(n)] else Decimal(n / 10) + [Digit(n % 10)]
  }

  /** The number that a text of digits stands for. */
  function Value(s: string): int {
    if s == "" then 0 else 10 * Value(s[..|s| - 1]) + (s[|s| - 1] as int - '0' as int)
  }

  /** The suffix is written in decimal digits, without leading zeros. */
  lemma {:induction false} DecimalReads(n: nat)
    ensures Value(Decimal(n)) == n && forall i | 0 <= i < |Decimal(n)| :: '0' <= Decimal(n)[i] <= '9'
    ensures n > 0 ==> Decimal(n)[0] != '0'
    decreases n
  {
    var s := Decimal(n);
    if n < 10 {
      assert s[..0] == "" && Value("") == 0;
    } else {
      DecimalReads(n / 10);
      assert s[..|s| - 1] == Decimal(n / 10);
    }
  }

  lemma {:induction false} DecimalIsInjective(m: nat, n: nat)
    requires Decimal(m) == Decimal(n)
    ensures m == n
    decreases m
  {
    var s := Decimal(m);
    if m >= 10 && n >= 10 {
      assert s[..|s| - 1] == Decimal(m / 10) == Decimal(n / 10);
      assert s[|s| - 1] == Digit(m % 10) == Digit(n % 10);
      DecimalIsInjective(m / 10, n / 10);
    } else {
      assert m >= 10 ==> |s| >= 2;
      assert n >= 10 ==> |s| >= 2;
    }
  }

  // ---- The search ------------------------------------------------------------------------

  /** The k-th slug tried: the base, then the base with 2, 3 and so on. */
  function Candidate(base: string, k: nat): string
    requires k >= 1
  {
    if k == 1 then base else base + "-" + Decimal(k)
  }

  lemma CandidatesDiffer(base: string, j: nat, k: nat)
    requires 1 <= j < k
    ensures Candidate(base, j) != Candidate(base, k)
  {
    if j > 1 && Candidate(base, j) == Candidate(base, k) {
      assert Candidate(base, j)[|base| + 1..] == Decimal(j);
      assert Candidate(base, k)[|base| + 1..] == Decimal(k);
      DecimalIsInjective(j, k);
    }
  }

  function FirstCandidates(base: string, n: nat): set<string> {
    if n == 0 then {} else FirstCandidates(base, n - 1) + {Candidate(base, n)}
  }

  lemma {:induction false} CandidatesAreMany(base: string, n: nat)
    ensures |FirstCandidates(base, n)| == n
    ensures forall s :: s in FirstCandidates(base, n) <==> exists k: nat :: 1 <= k <= n && s == Candidate(base, k)
    decreases n
  {
    if n > 0 {
      CandidatesAreMany(base, n - 1);
      forall k: nat | 1 <= k <= n - 1 ensures Candidate(base, k) != Candidate(base, n) { CandidatesDiffer(base, k, n); }
      hide Candidate;
      assert Candidate(base, n) !in FirstCandidates(base, n - 1);
    }
  }

  /** The slugs of the other rows; a new row has none of its own to leave out. */
  function Taken(rows: map<Id, string>, except: Option<Id>): set<string> {
    set id | id in rows && Some(id) != except :: rows[id]
  }

  /** Pigeonhole: if the first n candidates are all taken, n slugs are taken. */
  lemma TakenCandidates(base: string, n: nat, taken: set<string>)
    requires forall k: nat | 1 <= k <= n :: Candidate(base, k) in taken
    ensures n <= |taken|
  {
    CandidatesAreMany(base, n);
    hide Candidate, FirstCandidates;
    SubsetIsNoLarger(FirstCandidates(base, n), taken);
  }

  lemma {:induction false} NoMoreThanRows(rows: map<Id, string>, except: Option<Id>)
    ensures |Taken(rows, except)| <= |rows|
    decreases |rows|
  {
    if rows != map[] {
      var id :| id in rows;
      var rest := rows - {id};
      assert |rest| < |rows| by { assert rest.Keys == rows.Keys - {id}; assert |rest.Keys| == |rest|
          && |rows.Keys| == |rows|; }
      NoMoreThanRows(rest, except);
      SubsetIsNoLarger(Taken(rows, except), Taken(rest, except) + {rows[id]});
      assert Taken(rows, except) <= Taken(rest, except) + {rows[id]};
    }
  }

  /**
   * generateUniqueSlug and generateUniqueSlugExcluding: with n rows the search stops after at most n + 1 probes, on the
   * base or on the base with the least suffix that is free.
   */
  method GenerateUniqueSlug(rows: map<Id, string>, except: Option<Id>, base: string) returns (slug: string, probes: nat)
    ensures 1 <= probes <= |rows| + 1
    ensures slug == if probes == 1 then base else base + "-" + Decimal(probes)
    ensures forall id | id in rows && Some(id) != except :: rows[id] != slug
    ensures forall k: nat | 1 <= k < probes ::
      exists id :: id in rows && Some(id) != except && rows[id] == if k == 1 then base else base + "-" + Decimal(k)
  {
    ghost var taken := Taken(rows, except);
    NoMoreThanRows(rows, except);
    slug := base;
    probes := 1;
    while exists id | id in rows :: Some(id) != except && rows[id] == slug
      invariant probes >= 1 && slug == Candidate(base, probes)
      invariant forall k: nat | 1 <= k < probes :: Candidate(base, k) in taken
      decreases |rows| + 1 - probes
    {
      TakenCandidates(base, probes, taken);
      probes := probes + 1;
      slug := base + "-" + Decimal(probes);
    }
    TakenCandidates(base, probes - 1, taken);
    forall k: nat | 1 <= k < probes
      ensures exists id ::
        id in rows && Some(id) != except && rows[id] == if k == 1 then base else base + "-" + Decimal(k)
    {
      assert Candidate(base, k) in taken;
    }
  }
}
