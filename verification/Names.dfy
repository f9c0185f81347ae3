/** Turning source names into Kubernetes names and labels (pkg/utils/utils.go), for ASCII names; a
    label is that of section 2.1 of RFC 1123. */
module Names {
  import opened Wrappers
  import opened Numerals

  const LABEL_VALUE_MAX_LENGTH := 63
  const SUBDOMAIN_MAX_LENGTH := 253
  const MAX_INT := 0x7FFF_FFFF_FFFF_FFFF

  /** A string of ASCII characters that Go can hold. */
  predicate Ascii(s: string) {
    |s| <= MAX_INT && forall k | 0 <= k < |s| :: s[k] < 128 as char
  }

  predicate IsLower(c: char) {
    'a' <= c <= 'z'
  }

  predicate IsUpper(c: char) {
    'A' <= c <= 'Z'
  }

  predicate IsLegal(c: char) {
    IsLower(c) || IsDigit(c)
  }

  lemma LegalCharacters(c: char)
    ensures IsLegal(c) <==> c in "abcdefghijklmnopqrstuvwxyz0123456789"
    ensures IsUpper(c) <==> c in "ABCDEFGHIJKLMNOPQRSTUVWXYZ"
  {
    CharactersIn("abcdefghijklmnopqrstuvwxyz", 'a', c);
    CharactersIn("0123456789", '0', c);
    CharactersIn("ABCDEFGHIJKLMNOPQRSTUVWXYZ", 'A', c);
    assert "abcdefghijklmnopqrstuvwxyz0123456789" == "abcdefghijklmnopqrstuvwxyz" + "0123456789";
  }

  lemma CharactersIn(s: string, first: char, c: char)
    requires first as int + |s| <= 128 && forall k | 0 <= k < |s| :: s[k] as int == first as int + k
    ensures c in s <==> first as int <= c as int < first as int + |s|
  {
    if first as int <= c as int < first as int + |s| {
      assert s[c as int - first as int] == c;
    }
  }

  // ---------------------------------------------------------------------------------------------
  // What is valid

  predicate LabelShape(s: string) {
    && |s| > 0 && IsLegal(s[0]) && IsLegal(s[|s| - 1])
    && forall k | 0 <= k < |s| :: IsLegal(s[k]) || s[k] == '-'
  }

  predicate IsLabel(s: string) {
    |s| <= LABEL_VALUE_MAX_LENGTH && LabelShape(s)
  }

  /** The labels between the dots. */
  function Labels(s: string): (labels: seq<string>)
    ensures |labels| > 0
  {
    if s == [] then [""]
    else
      var rest := Labels(s[1..]);
      if s[0] == '.' then [""] + rest else [[s[0]] + rest[0]] + rest[1..]
  }

  predicate IsSubdomain(s: string) {
    |s| <= SUBDOMAIN_MAX_LENGTH && forall l | l in Labels(s) :: LabelShape(l)
  }

  lemma SubdomainWithoutDots(s: string)
    requires '.' !in s
    ensures IsSubdomain(s) <==> |s| <= SUBDOMAIN_MAX_LENGTH && LabelShape(s)
  {
    LabelsWithoutDots(s);
    assert s in [s];
  }

  lemma {:induction false} LabelsWithoutDots(s: string)
    requires '.' !in s
    ensures Labels(s) == [s]
  {
    if s != [] {
      assert s == [s[0]] + s[1..];
      LabelsWithoutDots(s[1..]);
    }
  }

  // ---------------------------------------------------------------------------------------------
  // normalize

  /** Lower case, with dots made dashes. */
  function Lowered(s: string): (r: string)
    ensures |r| == |s|
    ensures forall k | 0 <= k < |s| ::
              r[k] == if IsUpper(s[k]) then 'a' + (s[k] - 'A') else if s[k] == '.' then '-' else s[k]
  {
    if s == [] then []
    else
      [if IsUpper(s[0]) then 'a' + (s[0] - 'A') else if s[0] == '.' then '-' else s[0]] + Lowered(s[1..])
  }

  /** The part from the first alphanumeric character to the last; empty if there is none. */
  function Trimmed(s: string): (r: string)
    ensures |r| <= |s|
  {
    if s == [] then []
    else if !IsLegal(s[0]) then Trimmed(s[1..])
    else if !IsLegal(s[|s| - 1]) then Trimmed(s[..|s| - 1])
    else s
  }

  /** What is left when every other character is removed. */
  function Stripped(s: string): (r: string)
    ensures |r| <= |s|
    ensures forall k | 0 <= k < |r| :: IsLegal(r[k]) || r[k] == '-'
  {
    if s == [] then []
    else (if IsLegal(s[0]) || s[0] == '-' then [s[0]] else []) + Stripped(s[1..])
  }

  function Normalized(name: string): Result<string> {
    var trimmed := Trimmed(Lowered(name));
    if trimmed == "" then Failure("The name doesn't contain a legal alphanumeric character")
    else Success(Stripped(trimmed))
  }

  predicate HasAlphanumeric(s: string) {
    exists k :: 0 <= k < |s| && (IsLegal(s[k]) || IsUpper(s[k]))
  }

  lemma {:induction false} TrimmedMeans(s: string)
    ensures Trimmed(s) == "" <==> forall k | 0 <= k < |s| :: !IsLegal(s[k])
    ensures Trimmed(s) != "" ==> IsLegal(Trimmed(s)[0]) && IsLegal(Trimmed(s)[|Trimmed(s)| - 1])
  {
    if s == [] {
    } else if !IsLegal(s[0]) {
      TrimmedMeans(s[1..]);
      assert forall k | 1 <= k < |s| :: s[k] == s[1..][k - 1];
    } else if !IsLegal(s[|s| - 1]) {
      TrimmedMeans(s[..|s| - 1]);
      assert s[..|s| - 1][0] == s[0];
    }
  }

  lemma {:induction false} StrippedKeepsEnds(s: string)
    requires |s| > 0 && IsLegal(s[|s| - 1])
    ensures Stripped(s) != "" && Stripped(s)[|Stripped(s)| - 1] == s[|s| - 1]
    ensures IsLegal(s[0]) ==> Stripped(s)[0] == s[0]
  {
    if |s| > 1 {
      StrippedKeepsEnds(s[1..]);
    }
  }

  /** Normalising fails exactly on names without an alphanumeric character, and what it makes of the
      others has the shape of a label. */
  lemma NormalizedShape(name: string)
    ensures Normalized(name).Failure? <==> !HasAlphanumeric(name)
    ensures Normalized(name).Success? ==> LabelShape(Normalized(name).value) && |Normalized(name).value| <= |name|
  {
    var lowered := Lowered(name);
    TrimmedMeans(lowered);
    assert forall k | 0 <= k < |name| :: IsLegal(lowered[k]) <==> IsLegal(name[k]) || IsUpper(name[k]);
    if Normalized(name).Success? {
      StrippedKeepsEnds(Trimmed(lowered));
    }
  }

  /** Stripping and trimming commute, so the first and last character are settled by the alphanumeric
      ones alone. */
  lemma {:induction false} StrippingCommutes(s: string)
    ensures Stripped(Trimmed(s)) == Trimmed(Stripped(s))
  {
    if s == [] {
    } else if !IsLegal(s[0]) {
      StrippingCommutes(s[1..]);
      assert (if s[0] == '-' then Stripped(s)[1..] else Stripped(s)) == Stripped(s[1..]);
    } else if !IsLegal(s[|s| - 1]) {
      var init, last := s[..|s| - 1], s[|s| - 1];
      assert s == init + [last];
      StrippedOfConcat(init, [last]);
      StrippingCommutes(init);
      if last == '-' {
        assert Stripped(s)[..|Stripped(s)| - 1] == Stripped(init);
      } else {
        assert Stripped(init) + [] == Stripped(init);
      }
    } else {
      StrippedKeepsEnds(s);
    }
  }

  lemma {:induction false} StrippedOfConcat(a: string, b: string)
    ensures Stripped(a + b) == Stripped(a) + Stripped(b)
  {
    if a == [] {
      assert a + b == b;
    } else {
      assert (a + b)[0] == a[0] && (a + b)[1..] == a[1..] + b;
      StrippedOfConcat(a[1..], b);
      hide IsLegal;
      var head := if IsLegal(a[0]) || a[0] == '-' then [a[0]] else [];
      assert Stripped(a + b) == head + (Stripped(a[1..]) + Stripped(b));
      assert Stripped(a) == head + Stripped(a[1..]);
    }
  }

  /** The alphanumeric characters, in order. */
  function Alphanumerics(s: string): string {
    if s == [] then [] else (if IsLegal(s[0]) then [s[0]] else []) + Alphanumerics(s[1..])
  }

  lemma {:induction false} AlphanumericsOfConcat(a: string, b: string)
    ensures Alphanumerics(a + b) == Alphanumerics(a) + Alphanumerics(b)
  {
    if a == [] {
      assert a + b == b;
    } else {
      assert (a + b)[0] == a[0] && (a + b)[1..] == a[1..] + b;
      AlphanumericsOfConcat(a[1..], b);
      hide IsLegal;
      var head := if IsLegal(a[0]) then [a[0]] else [];
      assert Alphanumerics(a + b) == head + (Alphanumerics(a[1..]) + Alphanumerics(b));
      assert Alphanumerics(a) == head + Alphanumerics(a[1..]);
    }
  }

  lemma {:induction false} TrimmedKeepsAlphanumerics(s: string)
    ensures Alphanumerics(Trimmed(s)) == Alphanumerics(s)
  {
    if s == [] {
    } else if !IsLegal(s[0]) {
      TrimmedKeepsAlphanumerics(s[1..]);
    } else if !IsLegal(s[|s| - 1]) {
      TrimmedKeepsAlphanumerics(s[..|s| - 1]);
      assert s == s[..|s| - 1] + [s[|s| - 1]];
      AlphanumericsOfConcat(s[..|s| - 1], [s[|s| - 1]]);
    }
  }

  lemma {:induction false} StrippedKeepsAlphanumerics(s: string)
    ensures Alphanumerics(Stripped(s)) == Alphanumerics(s)
  {
    if s != [] {
      StrippedKeepsAlphanumerics(s[1..]);
      assert (if IsLegal(s[0]) || s[0] == '-' then Stripped(s)[1..] else Stripped(s)) == Stripped(s[1..]);
    }
  }

  /** Normalising loses no letter and no digit, and keeps their order. */
  lemma NormalizedKeepsAlphanumerics(name: string)
    requires Normalized(name).Success?
    ensures Alphanumerics(Normalized(name).value) == Alphanumerics(Lowered(name))
  {
    TrimmedKeepsAlphanumerics(Lowered(name));
    StrippedKeepsAlphanumerics(Trimmed(Lowered(name)));
  }

  // ---------------------------------------------------------------------------------------------
  // Labels

  function EnsureLabelValueLength(value: string): (r: string)
    requires |value| <= MAX_INT
    ensures |r| <= LABEL_VALUE_MAX_LENGTH
  {
    if |value| > LABEL_VALUE_MAX_LENGTH then
      var suffix := Decimal(|value|);
      SuffixFits(|value|);
      var shortened := value[..LABEL_VALUE_MAX_LENGTH - |suffix| - 1] + "-" + suffix;
      shortened
    else value
  }

  lemma SuffixFits(n: nat)
    requires n <= MAX_INT
    ensures |Decimal(n)| <= 19
  {
    assert Pow10(19) > MAX_INT by {
      assert Pow10(10) == 10_000_000_000;
      PowersMultiply(10, 9);
    }
    DecimalLength(n, 19);
  }

  lemma {:induction false} PowersMultiply(j: nat, k: nat)
    ensures Pow10(j + k) == Pow10(j) * Pow10(k)
  {
    if k > 0 {
      PowersMultiply(j, k - 1);
    }
  }

  /** A shortened value is as long as a label may be, and still has a label's shape if the value had. */
  lemma ShortenedShape(value: string)
    requires |value| <= MAX_INT
    ensures |value| > LABEL_VALUE_MAX_LENGTH ==> |EnsureLabelValueLength(value)| == LABEL_VALUE_MAX_LENGTH
    ensures LabelShape(value) ==> IsLabel(EnsureLabelValueLength(value))
  {
    if |value| > LABEL_VALUE_MAX_LENGTH {
      var suffix := Decimal(|value|);
      SuffixFits(|value|);
      var r := EnsureLabelValueLength(value);
      assert r[|r| - 1] == suffix[|suffix| - 1];
    }
  }

  /** What a shortened value still tells: the length it was shortened from, and at least 43 characters
      of its start. */
  lemma ShortenedTells(value: string, other: string)
    requires LABEL_VALUE_MAX_LENGTH < |value| <= MAX_INT && LABEL_VALUE_MAX_LENGTH < |other| <= MAX_INT
    requires EnsureLabelValueLength(value) == EnsureLabelValueLength(other)
    ensures |value| == |other| && value[..43] == other[..43]
  {
    var r := EnsureLabelValueLength(value);
    ShortenedEnd(value);
    ShortenedEnd(other);
    DecimalRoundTrip(|value|);
    DecimalRoundTrip(|other|);
    hide EnsureLabelValueLength, Decimal, ParseDecimal;
    LastDash(r, |Decimal(|value|)|, |Decimal(|other|)|);
  }

  /** The end of a shortened value is the number of characters it had. */
  lemma ShortenedEnd(value: string)
    requires LABEL_VALUE_MAX_LENGTH < |value| <= MAX_INT
    ensures var r, m := EnsureLabelValueLength(value), |Decimal(|value|)|;
            && m < |r| && r[|r| - m - 1] == '-' && r[|r| - m..] == Decimal(|value|)
            && 43 <= |r| && r[..43] == value[..43]
  {
    SuffixFits(|value|);
    hide Decimal;
  }

  /** Only digits come after the last dash. */
  lemma LastDash(r: string, m: nat, n: nat)
    requires m < |r| && r[|r| - m - 1] == '-' && forall c | c in r[|r| - m..] :: IsDigit(c)
    requires n < |r| && r[|r| - n - 1] == '-' && forall c | c in r[|r| - n..] :: IsDigit(c)
    ensures m == n
  {
    if m < n {
      AnyDigit(r[|r| - n..], n - m - 1);
    } else if n < m {
      AnyDigit(r[|r| - m..], m - n - 1);
    }
  }

  lemma AnyDigit(s: string, k: nat)
    requires k < |s| && forall c | c in s :: IsDigit(c)
    ensures s[k] != '-'
  {
    assert s[k] in s;
  }

  function NormalizeLabel(name: string): Result<string>
    requires Ascii(name)
  {
    if |name| == 0 then Failure("The provided label is empty")
    else if IsLabel(name) then Success(name)
    else match Normalized(name)
      case Failure(e) => Failure(e)
      case Success(n) => NormalizedShape(name); Success(EnsureLabelValueLength(n))
  }

  /** A label comes out for every name with an alphanumeric character and for no other; a label goes
      through unchanged, and so does what came out. */
  lemma LabelsComeOut(name: string)
    requires Ascii(name)
    ensures NormalizeLabel(name).Success? <==> HasAlphanumeric(name)
    ensures NormalizeLabel(name).Success? ==> IsLabel(NormalizeLabel(name).value)
    ensures NormalizeLabel(name) == Success(name) <==> IsLabel(name)
    ensures NormalizeLabel(name).Success? ==> Ascii(NormalizeLabel(name).value)
                                              && NormalizeLabel(NormalizeLabel(name).value) == NormalizeLabel(name)
  {
    NormalizedShape(name);
    if IsLabel(name) {
      assert IsLegal(name[0]);
    } else if Normalized(name).Success? {
      ShortenedShape(Normalized(name).value);
    }
  }

  lemma {:induction false} LegalNamesAreLow(s: string)
    requires forall k | 0 <= k < |s| :: !IsUpper(s[k]) && s[k] != '.'
    ensures Lowered(s) == s
  {}

  lemma LabelsAreLegal(s: string)
    requires LabelShape(s)
    ensures forall k | 0 <= k < |s| :: IsLegal(s[k]) || s[k] == '-'
  {}

  lemma LoweredOfConcat(a: string, b: string)
    ensures Lowered(a + b) == Lowered(a) + Lowered(b)
  {
    hide Lowered;
  }

  /** A label keeps every letter and digit of the name, or what 43 characters of it have room for. */
  lemma LabelsKeepContent(name: string)
    requires Ascii(name) && NormalizeLabel(name).Success?
    ensures var out := NormalizeLabel(name).value;
            || Alphanumerics(out) == Alphanumerics(Lowered(name))
            || (Normalized(name).Success? && |Normalized(name).value| > LABEL_VALUE_MAX_LENGTH
                && out[..43] == Normalized(name).value[..43])
  {
    hide Alphanumerics, Lowered, Normalized, Decimal, LabelShape;
    if IsLabel(name) {
      LabelsAreLegal(name);
      LegalNamesAreLow(name);
    } else {
      NormalizedShape(name);
      NormalizedKeepsAlphanumerics(name);
      SuffixFits(|Normalized(name).value|);
    }
  }

  // ---------------------------------------------------------------------------------------------
  // Names

  function NormalizeName(name: string): (r: Result<string>)
    ensures r.Success? ==> |r.value| <= SUBDOMAIN_MAX_LENGTH
  {
    if |name| == 0 then Failure("The provided name is empty")
    else if IsSubdomain(name) then Success(name)
    else match Normalized(name)
      case Failure(e) => Failure(e)
      case Success(n) => Success(if |n| > SUBDOMAIN_MAX_LENGTH then n[..SUBDOMAIN_MAX_LENGTH] else n)
  }

  /** Whether a name is cut right after a dash. */
  predicate CutAfterDash(name: string) {
    && !IsSubdomain(name) && Normalized(name).Success?
    && |Normalized(name).value| > SUBDOMAIN_MAX_LENGTH
    && Normalized(name).value[SUBDOMAIN_MAX_LENGTH - 1] == '-'
  }

  lemma SubdomainHasAlphanumeric(name: string)
    requires IsSubdomain(name)
    ensures HasAlphanumeric(name)
  {
    if forall k | 0 <= k < |name| :: !IsLegal(name[k]) {
      FirstLabelIsIllegal(name);
      assert Labels(name)[0] in Labels(name);
    }
  }

  lemma {:induction false} FirstLabelIsIllegal(s: string)
    requires forall k | 0 <= k < |s| :: !IsLegal(s[k])
    ensures forall k | 0 <= k < |Labels(s)[0]| :: !IsLegal(Labels(s)[0][k])
  {
    if s != [] {
      FirstLabelIsIllegal(s[1..]);
    }
  }

  /** A name comes out for every name with an alphanumeric character and for no other, and it is a valid
      subdomain, which is left alone the next time, unless it was cut right after a dash. */
  lemma NamesComeOut(name: string)
    ensures NormalizeName(name).Success? <==> HasAlphanumeric(name)
    ensures NormalizeName(name).Success? ==>
              var out := NormalizeName(name).value;
              && |out| <= SUBDOMAIN_MAX_LENGTH && out != "" && IsLegal(out[0])
              && (IsSubdomain(out) <==> !CutAfterDash(name))
              && (NormalizeName(out) == Success(out) <==> !CutAfterDash(name))
  {
    NormalizedShape(name);
    if IsSubdomain(name) {
      hide IsSubdomain, Normalized, HasAlphanumeric;
      SubdomainHasAlphanumeric(name);
      FirstCharacterIsLegal(name);
    } else if Normalized(name).Success? {
      hide IsSubdomain, Normalized, HasAlphanumeric, LabelShape;
      CutShape(Normalized(name).value);
      StableIff(NormalizeName(name).value);
    }
  }

  /** What is cut from the shape of a label has it again unless it ends with a dash. */
  lemma CutShape(n: string)
    requires LabelShape(n)
    ensures var out := if |n| > SUBDOMAIN_MAX_LENGTH then n[..SUBDOMAIN_MAX_LENGTH] else n;
            && out != "" && IsLegal(out[0]) && '.' !in out
            && (LabelShape(out) <==> !(|n| > SUBDOMAIN_MAX_LENGTH && n[SUBDOMAIN_MAX_LENGTH - 1] == '-'))
  {}

  /** A name without dots stays as it is exactly if it is valid. */
  lemma StableIff(out: string)
    requires out != "" && |out| <= SUBDOMAIN_MAX_LENGTH && '.' !in out
    ensures IsSubdomain(out) <==> LabelShape(out)
    ensures NormalizeName(out) == Success(out) <==> LabelShape(out)
  {
    SubdomainWithoutDots(out);
    NormalizedShape(out);
    hide Normalized, IsSubdomain;
  }

  /** A name keeps every letter and digit, or as many characters as it has room for. */
  lemma NamesKeepContent(name: string)
    requires NormalizeName(name).Success?
    ensures var out := NormalizeName(name).value;
            || Alphanumerics(Lowered(out)) == Alphanumerics(Lowered(name))
            || (Normalized(name).Success? && |out| == SUBDOMAIN_MAX_LENGTH && out < Normalized(name).value)
  {
    if !IsSubdomain(name) {
      NormalizedShape(name);
      NormalizedKeepsAlphanumerics(name);
      LegalNamesAreLow(Normalized(name).value);
    }
  }

  lemma FirstCharacterIsLegal(name: string)
    requires IsSubdomain(name)
    ensures name != "" && IsLegal(name[0])
  {
    assert Labels(name)[0] in Labels(name);
  }

  function Repeated(c: char, n: nat): (s: string)
    ensures |s| == n && forall k | 0 <= k < n :: s[k] == c
  {
    if n == 0 then [] else [c] + Repeated(c, n - 1)
  }

  /** Such names exist: 252 letters, a dash and one more letter. */
  lemma CutNamesExist()
    ensures var name := Repeated('a', 252) + "-a";
            NormalizeName(name).Success? && !IsSubdomain(NormalizeName(name).value)
  {
    var name := Repeated('a', 252) + "-a";
    NormalOfNormal(name);
    assert name[252] == '-';
    assert CutAfterDash(name);
    NamesComeOut(name);
  }

  lemma {:induction false} StrippedOfStripped(s: string)
    requires forall k | 0 <= k < |s| :: IsLegal(s[k]) || s[k] == '-'
    ensures Stripped(s) == s
  {
    if s != [] {
      StrippedOfStripped(s[1..]);
    }
  }

  lemma NormalOfNormal(s: string)
    requires LabelShape(s)
    ensures Normalized(s) == Success(s)
  {
    assert Lowered(s) == s;
    assert Trimmed(s) == s;
    StrippedOfStripped(s);
  }

  // ---------------------------------------------------------------------------------------------
  // The names of target VMs and of their DataVolumes

  /** The name a target VM is to have: the one asked for or, failing that, the source's, made valid. */
  function ResolveVMNameBase(targetVMName: Option<string>, sourceName: Option<string>): Option<string> {
    if targetVMName.Some? then targetVMName
    else if sourceName.None? then None
    else match NormalizeName(sourceName.value)
      case Success(name) => Some(name)
      case Failure(_) => None
  }

  function ResolveVMName(targetVMName: Option<string>, sourceName: Option<string>): Option<string>
    requires targetVMName.Some? ==> |targetVMName.value| <= MAX_INT
  {
    match ResolveVMNameBase(targetVMName, sourceName)
    case None => None
    case Some(base) => Some(EnsureLabelValueLength(base))
  }

  /** The name that is asked for goes before the source's, and only the source's is made valid. */
  lemma NameIsFrom(targetVMName: Option<string>, sourceName: Option<string>)
    requires targetVMName.Some? ==> |targetVMName.value| <= MAX_INT
    ensures targetVMName.Some? ==>
              && ResolveVMName(targetVMName, sourceName) == Some(EnsureLabelValueLength(targetVMName.value))
              && (|targetVMName.value| <= 63 ==> ResolveVMName(targetVMName, sourceName) == targetVMName)
    ensures targetVMName.None? && sourceName.Some? && NormalizeName(sourceName.value).Success? ==>
              ResolveVMName(targetVMName, sourceName)
              == Some(EnsureLabelValueLength(NormalizeName(sourceName.value).value))
    ensures ResolveVMName(targetVMName, sourceName).None? <==>
            targetVMName.None? && (sourceName.None? || !HasAlphanumeric(sourceName.value))
  {
    if sourceName.Some? {
      NamesComeOut(sourceName.value);
    }
  }

  /** The name is short enough for a label value, and a label if what it is made from has the shape of
      one; that is so of every source name that is not a subdomain itself and is not cut after a dash. */
  lemma ResolvedNamesAreLabels(targetVMName: Option<string>, sourceName: Option<string>)
    requires targetVMName.Some? ==> |targetVMName.value| <= MAX_INT
    requires ResolveVMName(targetVMName, sourceName).Some?
    ensures var base := ResolveVMNameBase(targetVMName, sourceName).value;
            && (LabelShape(base) ==> IsLabel(ResolveVMName(targetVMName, sourceName).value))
            && (targetVMName.None? && !IsSubdomain(sourceName.value) && !CutAfterDash(sourceName.value) ==>
                  LabelShape(base))
    ensures |ResolveVMName(targetVMName, sourceName).value| <= LABEL_VALUE_MAX_LENGTH
  {
    ShortenedShape(ResolveVMNameBase(targetVMName, sourceName).value);
    if targetVMName.None? {
      NormalizedShape(sourceName.value);
    }
  }

  /** A DataVolume is named after the target VM and the disk; a name that cannot be made valid is empty. */
  function BuildDataVolumeName(targetVMName: string, disk: string): (r: string)
    ensures |r| <= SUBDOMAIN_MAX_LENGTH
  {
    match NormalizeName(targetVMName + "-" + disk)
    case Success(name) => name
    case Failure(_) => ""
  }

  /** That is so exactly if neither has an alphanumeric character. */
  lemma EmptyNameIff(targetVMName: string, disk: string)
    ensures BuildDataVolumeName(targetVMName, disk) == "" <==> !HasAlphanumeric(targetVMName + "-" + disk)
  {
    NamesComeOut(targetVMName + "-" + disk);
  }

  function Cut(s: string, n: nat): string {
    if |s| > n then s[..n] else s
  }

  /** How many characters of a disk's own name the DataVolume's name has room for. */
  function Room(targetVMName: string): nat {
    if |targetVMName| < SUBDOMAIN_MAX_LENGTH then SUBDOMAIN_MAX_LENGTH - |targetVMName| - 1 else 0
  }

  lemma JoinedName(targetVMName: string, disk: string)
    requires LabelShape(targetVMName) && LabelShape(disk)
    ensures BuildDataVolumeName(targetVMName, disk) == Cut(targetVMName + "-" + disk, SUBDOMAIN_MAX_LENGTH)
  {
    var name := targetVMName + "-" + disk;
    assert name[0] == targetVMName[0] && name[|name| - 1] == disk[|disk| - 1];
    SubdomainWithoutDots(name);
    NormalOfNormal(name);
  }

  /** Two disks get the same DataVolume name exactly when their own names agree as far as there is room. */
  lemma NamesAgreeIff(targetVMName: string, disk: string, other: string)
    requires LabelShape(targetVMName) && LabelShape(disk) && LabelShape(other)
    ensures BuildDataVolumeName(targetVMName, disk) == BuildDataVolumeName(targetVMName, other)
            <==> Cut(disk, Room(targetVMName)) == Cut(other, Room(targetVMName))
  {
    hide LabelShape, BuildDataVolumeName;
    JoinedName(targetVMName, disk);
    JoinedName(targetVMName, other);
    CutsAgreeIff(targetVMName + "-", disk, other, SUBDOMAIN_MAX_LENGTH);
  }

  lemma CutAfterPrefix(prefix: string, s: string, n: nat)
    requires |prefix| <= n
    ensures Cut(prefix + s, n) == prefix + Cut(s, n - |prefix|)
  {
  }

  // ---------------------------------------------------------------------------------------------
  // The names of volumes

  /** The name of a DataVolume in the cluster. */
  type DVName = s: string | |s| <= SUBDOMAIN_MAX_LENGTH witness ""

  /** A volume is named after its DataVolume, but has to have a label value for a name. */
  function VolumeName(dv: DVName): string {
    EnsureLabelValueLength("dv-" + dv)
  }

  /** How many characters of a DataVolume's name, by its length, the name of the volume keeps. */
  function KeptInVolume(length: nat): nat {
    if length <= 60 then length else if length <= 96 then 57 else 56
  }

  function VolumeSuffix(length: nat): string {
    if length <= 60 then "" else "-" + Decimal(length + 3)
  }

  lemma DigitsOfLength(n: nat)
    ensures 10 <= n < 100 ==> |Decimal(n)| == 2
    ensures 100 <= n < 1000 ==> |Decimal(n)| == 3
  {}

  lemma VolumeNameIs(dv: DVName)
    ensures VolumeName(dv) == "dv-" + (Cut(dv, KeptInVolume(|dv|)) + VolumeSuffix(|dv|))
  {
    var value := "dv-" + dv;
    DigitsOfLength(|value|);
    hide Decimal;
    if |value| > LABEL_VALUE_MAX_LENGTH {
      var kept := KeptInVolume(|dv|);
      assert value[..kept + 3] == "dv-" + dv[..kept];
    } else {
      assert Cut(dv, |dv|) + "" == dv;
    }
  }

  /** Two DataVolume names of one length give one volume name exactly when they agree as far as it is kept:
      wholly up to 60 characters, and in the first 57 or 56 beyond. */
  lemma VolumeNamesAgreeIff(a: DVName, b: DVName)
    requires |a| == |b|
    ensures VolumeName(a) == VolumeName(b) <==> Cut(a, KeptInVolume(|a|)) == Cut(b, KeptInVolume(|b|))
  {
    VolumeNameIs(a);
    VolumeNameIs(b);
    hide VolumeName, VolumeSuffix;
    SameSuffix("dv-", Cut(a, KeptInVolume(|a|)), Cut(b, KeptInVolume(|b|)), VolumeSuffix(|a|));
  }

  lemma SameSuffix(prefix: string, a: string, b: string, suffix: string)
    requires |a| == |b|
    ensures prefix + (a + suffix) == prefix + (b + suffix) <==> a == b
  {
    var x, y := prefix + (a + suffix), prefix + (b + suffix);
    assert x[|prefix|..|prefix| + |a|] == a && y[|prefix|..|prefix| + |b|] == b;
  }

  /** Names of different lengths do so only if the shorter one has 60 characters and happens to read like
      the longer one shortened. */
  lemma VolumeNamesOfDifferentLengths(a: DVName, b: DVName)
    requires |a| < |b|
    ensures VolumeName(a) == VolumeName(b) <==>
            |a| == 60 && a == Cut(b, KeptInVolume(|b|)) + VolumeSuffix(|b|)
  {
    VolumeNameIs(a);
    VolumeNameIs(b);
    if |a| <= 60 {
      hide VolumeName, VolumeSuffix;
      var x, y := Cut(a, |a|) + VolumeSuffix(|a|), Cut(b, KeptInVolume(|b|)) + VolumeSuffix(|b|);
      assert ("dv-" + x)[3..] == x && ("dv-" + y)[3..] == y;
      ShortHasNoSuffix(a);
      VolumeNameLength(b);
    } else if VolumeName(a) == VolumeName(b) {
      ShortenedTells("dv-" + a, "dv-" + b);
    }
  }

  lemma ShortHasNoSuffix(dv: DVName)
    requires |dv| <= 60
    ensures Cut(dv, |dv|) + VolumeSuffix(|dv|) == dv && |VolumeName(dv)| == |dv| + 3
  {}

  lemma VolumeNameLength(dv: DVName)
    ensures |VolumeName(dv)| == if |dv| <= 60 then |dv| + 3 else LABEL_VALUE_MAX_LENGTH
  {
    ShortenedShape("dv-" + dv);
  }

  /** How many characters of a disk's own name, by its length, the volume's name has room for. */
  function VolumeRoom(targetVMName: string, length: nat): nat {
    var kept := KeptInVolume(|targetVMName| + 1 + length);
    if kept > |targetVMName| then kept - |targetVMName| - 1 else 0
  }

  /** Two disks with names of one length get one volume name exactly when these agree as far as there is
      room. */
  lemma VolumesAgreeIff(targetVMName: string, disk: string, other: string)
    requires IsLabel(targetVMName) && LabelShape(disk) && LabelShape(other) && |disk| == |other| <= 189
    ensures VolumeName(BuildDataVolumeName(targetVMName, disk)) == VolumeName(BuildDataVolumeName(targetVMName, other))
            <==> Cut(disk, VolumeRoom(targetVMName, |disk|)) == Cut(other, VolumeRoom(targetVMName, |other|))
  {
    hide *;
    JoinedWhole(targetVMName, disk);
    JoinedWhole(targetVMName, other);
    VolumeRoomIs(targetVMName, |disk|);
    JoinedAgreeIff(targetVMName + "-", disk, other);
  }

  lemma VolumeRoomIs(targetVMName: string, length: nat)
    ensures var prefix := targetVMName + "-";
            var kept := KeptInVolume(|prefix| + length);
            VolumeRoom(targetVMName, length) == if kept >= |prefix| then kept - |prefix| else 0
  {}

  lemma JoinedAgreeIff(prefix: string, disk: string, other: string)
    requires |disk| == |other| && |prefix| + |disk| <= SUBDOMAIN_MAX_LENGTH
    ensures var kept := KeptInVolume(|prefix| + |disk|);
            var room := if kept >= |prefix| then kept - |prefix| else 0;
            VolumeName(prefix + disk) == VolumeName(prefix + other) <==> Cut(disk, room) == Cut(other, room)
  {
    hide *;
    VolumeNamesAgreeIff(prefix + disk, prefix + other);
    CutsAgreeIff(prefix, disk, other, KeptInVolume(|prefix| + |disk|));
  }

  lemma JoinedWhole(targetVMName: string, disk: string)
    requires IsLabel(targetVMName) && LabelShape(disk) && |disk| <= 189
    ensures BuildDataVolumeName(targetVMName, disk) == targetVMName + "-" + disk
    ensures |targetVMName + "-"| + |disk| <= SUBDOMAIN_MAX_LENGTH
  {
    hide LabelShape, BuildDataVolumeName;
    JoinedName(targetVMName, disk);
  }

  lemma CutsAgreeIff(prefix: string, a: string, b: string, n: nat)
    ensures Cut(prefix + a, n) == Cut(prefix + b, n)
            <==> var room := if n >= |prefix| then n - |prefix| else 0; Cut(a, room) == Cut(b, room)
  {
    if n >= |prefix| {
      CutAfterPrefix(prefix, a, n);
      CutAfterPrefix(prefix, b, n);
      var x, y := Cut(a, n - |prefix|), Cut(b, n - |prefix|);
      assert (prefix + x)[|prefix|..] == x && (prefix + y)[|prefix|..] == y;
    } else {
      assert (prefix + a)[..n] == prefix[..n] == (prefix + b)[..n];
    }
  }

  /** For the 36 characters of an oVirt ID: all of them up to targets of 23 characters, none from 56 on. */
  lemma VolumeRoomForIDs(targetVMName: string)
    requires |targetVMName| <= LABEL_VALUE_MAX_LENGTH
    ensures VolumeRoom(targetVMName, 36)
            == if |targetVMName| <= 23 then 36 else if |targetVMName| < 56 then 56 - |targetVMName| else 0
  {}
}
