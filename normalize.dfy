/** The field normalisers of backend/db/connection.py: phone canonicalisation, profile-id
    extraction and certification cleanup. */
module Normalize {
  import opened Common
  import opened Text

  // ---------------------------------------------------------------------------
  // Phone numbers (clean_phone_number)
  // ---------------------------------------------------------------------------

  /** The digits of s in order: ''.join(filter(str.isdigit, s)). */
  function Digits(s: string): (d: string)
    ensures |d| <= |s|
    ensures forall i :: 0 <= i < |d| ==> IsDigit(d[i])
  {
    if s == [] then [] else (if IsDigit(s[0]) then [s[0]] else []) + Digits(s[1..])
  }

  lemma {:induction false} DigitsAppend(a: string, b: string)
    ensures Digits(a + b) == Digits(a) + Digits(b)
  {
    if a == [] {
      assert a + b == b;
    } else {
      assert (a + b)[1..] == a[1..] + b;
      DigitsAppend(a[1..], b);
    }
  }

  lemma {:induction false} DigitsOfDigits(d: string)
    requires forall i :: 0 <= i < |d| ==> IsDigit(d[i])
    ensures Digits(d) == d
  {
    if d != [] {
      DigitsOfDigits(d[1..]);
    }
  }

  /** Ten digits, or eleven led by the country code 1: the digit strings that can be formatted. */
  predicate Parseable(d: string) {
    |d| == 10 || (|d| == 11 && d[0] == '1')
  }

  /** The ten-digit national number: the last ten digits. */
  function NationalNumber(d: string): string
    requires Parseable(d)
  {
    d[|d| - 10..]
  }

  /** The display form "+1 (AAA) BBB-CCCC" of a ten-digit number. */
  function FormatPhone(d: string): string
    requires |d| == 10
  {
    "+1 (" + d[..3] + ") " + d[3..6] + "-" + d[6..]
  }

  /** A string in the display form "+1 (AAA) BBB-CCCC". */
  predicate IsCanonicalPhone(s: string) {
    && |s| == 17 && s[..4] == "+1 (" && s[7..9] == ") " && s[12] == '-'
    && (forall i :: 4 <= i < 7 ==> IsDigit(s[i]))
    && (forall i :: 9 <= i < 12 ==> IsDigit(s[i]))
    && (forall i :: 13 <= i < 17 ==> IsDigit(s[i]))
  }

  /** The display form is canonical. */
  lemma FormatPhoneCanonical(d: string)
    requires |d| == 10 && forall i :: 0 <= i < 10 ==> IsDigit(d[i])
    ensures IsCanonicalPhone(FormatPhone(d))
  {
    var p := FormatPhone(d);
    assert forall i :: 4 <= i < 7 ==> p[i] == d[i - 4];
    assert forall i :: 9 <= i < 12 ==> p[i] == d[i - 6];
    assert forall i :: 13 <= i < 17 ==> p[i] == d[i - 7];
  }

  /** The digits of the fixed parts of the display form. */
  lemma DigitsOfSeparators()
    ensures Digits("+1 (") == "1" && Digits(") ") == "" && Digits("-") == ""
  {
  }

  /** Digits distributes over a concatenation of six parts. */
  lemma DigitsOfSix(p: string, a: string, q: string, b: string, t: string, c: string)
    ensures Digits(p + a + q + b + t + c) == Digits(p) + Digits(a) + Digits(q) + Digits(b) + Digits(t) + Digits(c)
  {
    DigitsAppend(p + a + q + b + t, c);
    DigitsAppend(p + a + q + b, t);
    DigitsAppend(p + a + q, b);
    DigitsAppend(p + a, q);
    DigitsAppend(p, a);
  }

  /** The display form carries the country code followed by exactly the ten digits. */
  lemma FormatPhoneDigitString(d: string)
    requires |d| == 10 && forall i :: 0 <= i < 10 ==> IsDigit(d[i])
    ensures Digits(FormatPhone(d)) == "1" + d
  {
    var a, b, c := d[..3], d[3..6], d[6..];
    assert Digits(FormatPhone(d)) == "1" + a + b + c by {
      DigitsOfDigits(a);
      DigitsOfDigits(b);
      DigitsOfDigits(c);
      DigitsOfSeparators();
      DigitsOfSix("+1 (", a, ") ", b, "-", c);
    }
    assert d == a + b + c;
  }

  /** The display form is canonical and carries the country code followed by exactly the ten digits. */
  lemma FormatPhoneDigits(d: string)
    requires |d| == 10 && forall i :: 0 <= i < 10 ==> IsDigit(d[i])
    ensures IsCanonicalPhone(FormatPhone(d))
    ensures Digits(FormatPhone(d)) == "1" + d
  {
    FormatPhoneCanonical(d);
    FormatPhoneDigitString(d);
  }

  /** Every canonical string is the display form of its own last ten digits. */
  lemma CanonicalIsFormatted(s: string)
    requires IsCanonicalPhone(s)
    ensures Parseable(Digits(s)) && Digits(s)[0] == '1'
    ensures FormatPhone(NationalNumber(Digits(s))) == s
  {
    var d := s[4..7] + s[9..12] + s[13..];
    assert |d| == 10 && forall i :: 0 <= i < 10 ==> IsDigit(d[i]);
    assert s == "+1 (" + d[..3] + ") " + d[3..6] + "-" + d[6..];
    FormatPhoneDigits(d);
  }

  /** clean_phone_number: None for a missing or empty input; the display form of the last ten
      digits for a parseable number; otherwise the input returned untouched. */
  function CleanPhoneNumber(phone: Option<string>): (r: Option<string>)
    ensures r == None <==> !Present(phone)
    ensures Present(phone) && Parseable(Digits(phone.value)) ==>
      r.Some? && IsCanonicalPhone(r.value) && Digits(r.value) == "1" + NationalNumber(Digits(phone.value))
    ensures Present(phone) && !Parseable(Digits(phone.value)) ==> r == phone
  {
    if !Present(phone) then None
    else
      var digits := Digits(phone.value);
      if |digits| == 11 && digits[0] == '1' then
        FormatPhoneDigits(digits[1..]);
        Some(FormatPhone(digits[1..]))
      else if |digits| != 10 then
        phone
      else
        FormatPhoneDigits(digits);
        Some(FormatPhone(digits))
  }

  /** Cleaning a cleaned phone number changes nothing: the display form has eleven digits led by 1. */
  lemma CleanPhoneIdempotent(phone: Option<string>)
    ensures CleanPhoneNumber(CleanPhoneNumber(phone)) == CleanPhoneNumber(phone)
  {
    var r := CleanPhoneNumber(phone);
    if Present(phone) && Parseable(Digits(phone.value)) {
      CanonicalIsFormatted(r.value);
    }
  }

  /** The only strings cleaning leaves unchanged-but-present are canonical ones or unparseable ones;
      an unparseable string is never canonical. */
  lemma UnparseableIsNotCanonical(s: string)
    requires !Parseable(Digits(s))
    ensures !IsCanonicalPhone(s)
  {
    if IsCanonicalPhone(s) {
      CanonicalIsFormatted(s);
    }
  }

  // ---------------------------------------------------------------------------
  // Profile ids (extract_gaf_id)
  // ---------------------------------------------------------------------------

  /** The profile URL with its trailing slashes removed ends in "-" followed by id, and id holds
      no '/'. */
  predicate EndsWithIdSlug(url: string, id: string) {
    var t := RStripChar(url, '/');
    && |t| > |id| && t[|t| - |id| - 1] == '-' && t[|t| - |id|..] == id
    && forall i :: 0 <= i < |id| ==> id[i] != '/'
  }

  /** extract_gaf_id: None for a missing or empty URL; the digits after the last '-' of the last
      path segment when they are present; otherwise the URL itself. */
  function ExtractGafId(profileUrl: Option<string>): (r: Option<string>)
    ensures r == None <==> !Present(profileUrl)
    ensures r.Some? && r != profileUrl ==> IsDecimal(r.value)
  {
    if !Present(profileUrl) then None
    else
      var trimmed := RStripChar(profileUrl.value, '/');
      var lastPart := AfterLast(trimmed, '/');
      if '-' in lastPart then
        var potentialId := AfterLast(lastPart, '-');
        if IsDecimal(potentialId) then Some(potentialId) else profileUrl
      else
        profileUrl
  }

  /** An id extracted from a URL is a run of digits that closes the URL's last path segment,
      right after a '-'. */
  lemma ExtractedIdEndsSlug(profileUrl: Option<string>)
    requires ExtractGafId(profileUrl).Some? && ExtractGafId(profileUrl) != profileUrl
    ensures IsDecimal(ExtractGafId(profileUrl).value)
    ensures EndsWithIdSlug(profileUrl.value, ExtractGafId(profileUrl).value)
  {
    var trimmed := RStripChar(profileUrl.value, '/');
    var a := LastIndex(trimmed, '/') + 1;
    var lastPart := trimmed[a..];
    var b := LastIndex(lastPart, '-');
    assert lastPart[b] == '-';
    assert trimmed[a + b] == '-';
    assert lastPart[b + 1..] == trimmed[a + b + 1..];
  }

  function Slashes(n: nat): (s: string)
    ensures |s| == n && forall i :: 0 <= i < n ==> s[i] == '/'
  {
    seq(n, _ => '/')
  }

  /** Trailing slashes come off and nothing else does when the text before them ends in another
      character. */
  lemma RStripSlashes(t: string, n: nat)
    requires |t| > 0 && t[|t| - 1] != '/'
    ensures RStripChar(t + Slashes(n), '/') == t
  {
    var url := t + Slashes(n);
    assert url[|t| - 1] == t[|t| - 1];
    RStripLenUnique(url, '/', |t|);
    assert url[..|t|] == t;
  }

  /** In <base>-<digits> the last path segment contains the '-' and ends in exactly the digits
      after it. */
  lemma LastSegmentId(base: string, id: string)
    requires IsDecimal(id)
    ensures '-' in AfterLast(base + "-" + id, '/')
    ensures AfterLast(AfterLast(base + "-" + id, '/'), '-') == id
  {
    var t := base + "-" + id;
    assert forall i :: |base| <= i < |t| ==> t[i] != '/' by {
      forall i | |base| <= i < |t| ensures t[i] != '/' {
        if i > |base| { assert t[i] == id[i - |base| - 1] && IsDigit(id[i - |base| - 1]); }
      }
    }
    var a := LastIndex(t, '/') + 1;
    assert a <= |base|;
    var lastPart := t[a..];
    var k := |base| - a;
    assert lastPart[k] == '-';
    assert forall i :: k < i < |lastPart| ==> lastPart[i] != '-' by {
      forall i | k < i < |lastPart| ensures lastPart[i] != '-' {
        assert lastPart[i] == id[i - k - 1] && IsDigit(id[i - k - 1]);
      }
    }
    LastIndexUnique(lastPart, '-', k);
    assert lastPart[k + 1..] == id;
  }

  /** A profile URL of the form <anything>-<digits> followed by any number of slashes yields
      exactly those digits as its id. */
  lemma GafIdFromSlug(base: string, id: string, n: nat)
    requires IsDecimal(id)
    ensures ExtractGafId(Some(base + "-" + id + Slashes(n))) == Some(id)
  {
    var t := base + "-" + id;
    assert t[|t| - 1] == id[|id| - 1];
    RStripSlashes(t, n);
    LastSegmentId(base, id);
  }

  // ---------------------------------------------------------------------------
  // Certifications (clean_certifications)
  // ---------------------------------------------------------------------------

  /** The header and label lines dropped from scraped certification text, in the order they are tried. */
  const SkipPhrases: seq<string> := [
    "Certifications & Awards", "Certifications and Awards", "Certifications",
    "Awards", "Award", "Certification"]

  /** One turn of the prefix loop: drop "<prefix>\n" or "<prefix>:" from the front and re-strip. */
  function StripLabelPrefix(line: string, prefix: string): string {
    if StartsWith(line, prefix + "\n") then Strip(line[|prefix|..])
    else if StartsWith(line, prefix + ":") then Strip(line[|prefix| + 1..])
    else line
  }

  /** The whole prefix loop: each label tried once, in order, on the line as it stands by then. */
  function StripLabelPrefixes(line: string, prefixes: seq<string>): string
    decreases |prefixes|
  {
    if prefixes == [] then line
    else StripLabelPrefixes(StripLabelPrefix(line, prefixes[0]), prefixes[1..])
  }

  /** The prefix loop, one turn at a time. */
  lemma StripLabelPrefixesStep(line: string, prefixes: seq<string>, k: nat)
    requires k < |prefixes|
    ensures StripLabelPrefixes(line, prefixes[k..])
         == StripLabelPrefixes(StripLabelPrefix(line, prefixes[k]), prefixes[k + 1..])
  {
    assert prefixes[k..][1..] == prefixes[k + 1..];
  }

  /** The names kept from one more line. */
  lemma KeptNamesSnoc(pieces: seq<string>, j: int)
    requires 0 <= j < |pieces|
    ensures KeptNames(pieces[..j + 1])
         == KeptNames(pieces[..j]) + (if CleanLine(pieces[j]).Some? then {CleanLine(pieces[j]).value} else {})
  {
    assert pieces[..j + 1][..j] == pieces[..j];
  }

  /** The cleaned set of one more entry. */
  lemma CleanedSetSnoc(certs: seq<string>, i: int)
    requires 0 <= i < |certs|
    ensures CleanedSet(certs[..i + 1]) == CleanedSet(certs[..i]) + EntryNames(certs[i])
  {
    assert certs[..i + 1][..i] == certs[..i];
  }

  /** What one input line contributes: the stripped, de-labelled name when it is long enough
      and not itself a label. */
  function CleanLine(piece: string): Option<string> {
    var line := Strip(piece);
    if line in SkipPhrases then None
    else
      var name := StripLabelPrefixes(line, SkipPhrases);
      if |name| > 3 && name !in SkipPhrases then Some(name) else None
  }

  /** What each line of a list contributes, in order. */
  function CleanLines(pieces: seq<string>): (r: seq<Option<string>>)
    ensures |r| == |pieces|
    decreases |pieces|
  {
    if pieces == [] then [] else CleanLines(pieces[..|pieces| - 1]) + [CleanLine(pieces[|pieces| - 1])]
  }

  lemma {:induction false} CleanLinesAt(pieces: seq<string>, j: int)
    requires 0 <= j < |pieces|
    ensures CleanLines(pieces)[j] == CleanLine(pieces[j])
    decreases |pieces|
  {
    if j < |pieces| - 1 {
      CleanLinesAt(pieces[..|pieces| - 1], j);
    }
  }

  /** The names present in a list of optional names. */
  function Names(opts: seq<Option<string>>): set<string>
    decreases |opts|
  {
    if opts == [] then {}
    else
      var last := opts[|opts| - 1];
      Names(opts[..|opts| - 1]) + (if last.Some? then {last.value} else {})
  }

  lemma {:induction false} NamesMembers(opts: seq<Option<string>>, e: string)
    ensures e in Names(opts) <==> exists j :: 0 <= j < |opts| && opts[j] == Some(e)
    decreases |opts|
  {
    if opts != [] {
      var init := opts[..|opts| - 1];
      NamesMembers(init, e);
      if e in Names(init) {
        var j :| 0 <= j < |init| && init[j] == Some(e);
        assert opts[j] == init[j];
      }
      if exists j :: 0 <= j < |opts| && opts[j] == Some(e) {
        var j :| 0 <= j < |opts| && opts[j] == Some(e);
        assert j < |init| ==> init[j] == opts[j];
      }
    }
  }

  /** The names kept from a list of lines. */
  function KeptNames(pieces: seq<string>): set<string> {
    Names(CleanLines(pieces))
  }

  /** A name is kept from a list of lines exactly when one of the lines cleans to it. */
  lemma KeptNamesMembers(pieces: seq<string>, e: string)
    ensures e in KeptNames(pieces) <==> exists j :: 0 <= j < |pieces| && CleanLine(pieces[j]) == Some(e)
  {
    NamesMembers(CleanLines(pieces), e);
    if e in KeptNames(pieces) {
      var j :| 0 <= j < |pieces| && CleanLines(pieces)[j] == Some(e);
      CleanLinesAt(pieces, j);
    }
    if exists j :: 0 <= j < |pieces| && CleanLine(pieces[j]) == Some(e) {
      var j :| 0 <= j < |pieces| && CleanLine(pieces[j]) == Some(e);
      CleanLinesAt(pieces, j);
    }
  }

  /** The names one certification entry contributes; an empty entry is skipped. */
  function EntryNames(cert: string): set<string> {
    if cert == "" then {} else KeptNames(Split(cert, '\n'))
  }

  /** What each entry of a list contributes, in order. */
  function EntriesNames(certs: seq<string>): (r: seq<set<string>>)
    ensures |r| == |certs|
    decreases |certs|
  {
    if certs == [] then [] else EntriesNames(certs[..|certs| - 1]) + [EntryNames(certs[|certs| - 1])]
  }

  lemma {:induction false} EntriesNamesAt(certs: seq<string>, i: int)
    requires 0 <= i < |certs|
    ensures EntriesNames(certs)[i] == EntryNames(certs[i])
    decreases |certs|
  {
    if i < |certs| - 1 {
      EntriesNamesAt(certs[..|certs| - 1], i);
    }
  }

  /** The union of a list of sets. */
  function Union(sets: seq<set<string>>): set<string>
    decreases |sets|
  {
    if sets == [] then {} else Union(sets[..|sets| - 1]) + sets[|sets| - 1]
  }

  lemma {:induction false} UnionMembers(sets: seq<set<string>>, e: string)
    ensures e in Union(sets) <==> exists i :: 0 <= i < |sets| && e in sets[i]
    decreases |sets|
  {
    if sets != [] {
      var init := sets[..|sets| - 1];
      UnionMembers(init, e);
      if e in Union(init) {
        var i :| 0 <= i < |init| && e in init[i];
        assert sets[i] == init[i];
      }
      if exists i :: 0 <= i < |sets| && e in sets[i] {
        var i :| 0 <= i < |sets| && e in sets[i];
        assert i < |init| ==> init[i] == sets[i];
      }
    }
  }

  /** The set clean_certifications fills: the names kept from every line of every non-empty entry. */
  function CleanedSet(certs: seq<string>): set<string> {
    Union(EntriesNames(certs))
  }

  /** A name is in the cleaned set exactly when some entry contributes it. */
  lemma CleanedSetEntries(certs: seq<string>, e: string)
    ensures e in CleanedSet(certs) <==> exists i :: 0 <= i < |certs| && e in EntryNames(certs[i])
  {
    UnionMembers(EntriesNames(certs), e);
    if e in CleanedSet(certs) {
      var i :| 0 <= i < |certs| && e in EntriesNames(certs)[i];
      EntriesNamesAt(certs, i);
    }
    if exists i :: 0 <= i < |certs| && e in EntryNames(certs[i]) {
      var i :| 0 <= i < |certs| && e in EntryNames(certs[i]);
      EntriesNamesAt(certs, i);
    }
  }

  /** e is kept from line j of the non-empty entry i. */
  predicate KeptFrom(certs: seq<string>, i: int, j: int, e: string) {
    0 <= i < |certs| && certs[i] != "" && 0 <= j < |Split(certs[i], '\n')|
    && CleanLine(Split(certs[i], '\n')[j]) == Some(e)
  }

  /** The cleaned set holds exactly the names kept from some line of some non-empty input entry. */
  lemma CleanedSetMembers(certs: seq<string>, e: string)
    ensures e in CleanedSet(certs) <==> exists i, j :: KeptFrom(certs, i, j, e)
  {
    CleanedSetEntries(certs, e);
    if e in CleanedSet(certs) {
      var i :| 0 <= i < |certs| && e in EntryNames(certs[i]);
      KeptNamesMembers(Split(certs[i], '\n'), e);
      var j :| 0 <= j < |Split(certs[i], '\n')| && CleanLine(Split(certs[i], '\n')[j]) == Some(e);
      assert KeptFrom(certs, i, j, e);
    }
    if exists i, j :: KeptFrom(certs, i, j, e) {
      var i, j :| KeptFrom(certs, i, j, e);
      KeptNamesMembers(Split(certs[i], '\n'), e);
      assert e in EntryNames(certs[i]);
    }
  }

  /** A line free of newlines and already stripped stays so through the prefix loop. */
  lemma {:induction false} StripLabelPrefixesShape(line: string, prefixes: seq<string>)
    requires '\n' !in line && Trimmed(line)
    ensures '\n' !in StripLabelPrefixes(line, prefixes) && Trimmed(StripLabelPrefixes(line, prefixes))
    decreases |prefixes|
  {
    if prefixes != [] {
      var p := prefixes[0];
      var next := StripLabelPrefix(line, p);
      if StartsWith(line, p + "\n") {
        assert forall c :: c in line[|p|..] ==> c in line;
      } else if StartsWith(line, p + ":") {
        assert forall c :: c in line[|p| + 1..] ==> c in line;
      }
      assert '\n' !in next && Trimmed(next);
      StripLabelPrefixesShape(next, prefixes[1..]);
    }
  }

  /** What a kept name looks like: no newline, stripped, longer than three characters, not a label. */
  lemma CleanLineShape(piece: string, e: string)
    requires '\n' !in piece && CleanLine(piece) == Some(e)
    ensures '\n' !in e && Trimmed(e) && |e| > 3 && e !in SkipPhrases
  {
    StripLabelPrefixesShape(Strip(piece), SkipPhrases);
  }

  /** Every member of the cleaned set has the shape of a kept name and comes from an input line. */
  lemma CleanedSetShape(certs: seq<string>, e: string)
    requires e in CleanedSet(certs)
    ensures '\n' !in e && Trimmed(e) && |e| > 3 && e !in SkipPhrases
    ensures exists i, j :: KeptFrom(certs, i, j, e)
  {
    CleanedSetMembers(certs, e);
    var i, j :| KeptFrom(certs, i, j, e);
    SplitPiecesFree(certs[i], '\n', j);
    CleanLineShape(Split(certs[i], '\n')[j], e);
  }

  /** clean_certifications' inner loop: try each label in turn, peeling "<label>\n" or
      "<label>:" off the front of the line and re-stripping it. */
  method StripLabels(line: string, prefixes: seq<string>) returns (r: string)
    ensures r == StripLabelPrefixes(line, prefixes)
  {
    r := line;
    var k := 0;
    while k < |prefixes|
      invariant 0 <= k <= |prefixes|
      invariant StripLabelPrefixes(r, prefixes[k..]) == StripLabelPrefixes(line, prefixes)
    {
      var prefix := prefixes[k];
      ghost var before := r;
      if StartsWith(r, prefix + "\n") {
        r := Strip(r[|prefix|..]);
      } else if StartsWith(r, prefix + ":") {
        r := Strip(r[|prefix| + 1..]);
      }
      assert r == StripLabelPrefix(before, prefix);
      StripLabelPrefixesStep(before, prefixes, k);
      k := k + 1;
    }
    assert prefixes[k..] == [];
  }

  /** clean_certifications' line loop body: strip one line, drop it when it is a label, peel
      the label prefixes off it and keep it when something long enough is left. */
  method CleanPiece(piece: string) returns (name: Option<string>)
    ensures name == CleanLine(piece)
  {
    var line := Strip(piece);
    if line in SkipPhrases {
      return None;
    }
    line := StripLabels(line, SkipPhrases);
    if |line| > 3 && line !in SkipPhrases {
      return Some(line);
    }
    return None;
  }

  /** clean_certifications' line loop: add the names kept from each line. */
  method AddLineNames(cleaned: set<string>, lines: seq<string>) returns (r: set<string>)
    ensures r == cleaned + KeptNames(lines)
  {
    r := cleaned;
    var j := 0;
    while j < |lines|
      invariant 0 <= j <= |lines|
      invariant r == cleaned + KeptNames(lines[..j])
    {
      var name := CleanPiece(lines[j]);
      if name.Some? {
        r := r + {name.value};
      }
      KeptNamesSnoc(lines, j);
      j := j + 1;
    }
    assert lines[..j] == lines;
  }

  /** clean_certifications' entry loop body: skip an empty entry, otherwise add the names kept
      from each of its lines. */
  method AddEntryNames(cleaned: set<string>, cert: string) returns (r: set<string>)
    ensures r == cleaned + EntryNames(cert)
  {
    if cert == "" {
      return cleaned;
    }
    r := AddLineNames(cleaned, Split(cert, '\n'));
  }

  /** clean_certifications: split every entry into lines, strip them, drop labels and short lines,
      collect the rest in a set and return it sorted. */
  method CleanCertifications(certifications: seq<string>) returns (r: seq<string>)
    ensures r == SortedOf(CleanedSet(certifications))
    ensures StrictlySorted(r)
    ensures forall e :: e in r <==> e in CleanedSet(certifications)
  {
    if |certifications| == 0 {
      return [];
    }
    var cleaned: set<string> := {};
    var i := 0;
    while i < |certifications|
      invariant 0 <= i <= |certifications|
      invariant cleaned == CleanedSet(certifications[..i])
    {
      cleaned := AddEntryNames(cleaned, certifications[i]);
      CleanedSetSnoc(certifications, i);
      i := i + 1;
    }
    assert certifications[..i] == certifications;
    r := SortSet(cleaned);
  }
}
