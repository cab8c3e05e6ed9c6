/** Finding a server component's redirect in the body of a flight-data response. */
module RscRedirects {
  import opened Options
  import opened Text

  const MAX_BODY := 1_048_576

  datatype RscRedirectInfo = RscRedirectInfo(url: string, redirectType: string, statusCode: nat)

  function DigestPrefix(): string {
    "\"digest\":\""
  }

  function RedirectName(): string {
    "NEXT_REDIRECT"
  }

  function Marker(): string {
    DigestPrefix() + (RedirectName() + [';'])
  }

  lemma MarkerText()
    ensures Marker() == "\"digest\":\"NEXT_REDIRECT;" && DigestPrefix() == Marker()[..10]
  {
  }

  // ---------------------------------------------------------------- searching

  predicate OccursAt(text: string, pat: string, i: int) {
    0 <= i <= |text| - |pat| && text[i..i + |pat|] == pat
  }

  function FindFrom(text: string, pat: string, i: nat): (r: Option<nat>)
    requires i <= |text|
    ensures r.Some? ==> i <= r.value && OccursAt(text, pat, r.value)
                        && forall j :: i <= j < r.value ==> !OccursAt(text, pat, j)
    ensures r.None? ==> forall j :: i <= j <= |text| ==> !OccursAt(text, pat, j)
    decreases |text| - i
  {
    if OccursAt(text, pat, i) then Some(i) else if i == |text| then None else FindFrom(text, pat, i + 1)
  }

  function Find(text: string, pat: string): (r: Option<nat>)
    ensures r.Some? ==> OccursAt(text, pat, r.value) && forall j :: 0 <= j < r.value ==> !OccursAt(text, pat, j)
    ensures r.None? ==> forall j :: !OccursAt(text, pat, j)
  {
    FindFrom(text, pat, 0)
  }

  // ---------------------------------------------------------------- u16::from_str

  /** Digits with an optional plus sign, any number of leading zeros allowed. */
  function ParseU16(s: string): Option<nat> {
    var digits := if s != "" && s[0] == '+' then s[1..] else s;
    if digits != "" && AllDigits(digits) && DigitsValue(digits) < 0x1_0000 then Some(DigitsValue(digits)) else None
  }

  predicate IsRedirectStatus(code: nat) {
    code == 301 || code == 302 || code == 303 || code == 307 || code == 308
  }

  predicate IsRedirectType(t: string) {
    t == "push" || t == "replace"
  }

  // ---------------------------------------------------------------- detection

  function ParseDigest(digest: string): Option<RscRedirectInfo> {
    var parts := Split(digest, ';');
    var n := |parts|;
    if n < 5 then None
    else if parts[0] != RedirectName() then None
    else if !IsRedirectType(parts[1]) then None
    else if parts[n - 1] != "" then None
    else
      var status := ParseU16(parts[n - 2]);
      if status.None? then None
      else if !IsRedirectStatus(status.value) then None
      else Some(RscRedirectInfo(Join(parts[2..n - 2], ';'), parts[1], status.value))
  }

  /** `size` is the body's length in bytes, `text` what its bytes decode to. */
  function DetectRscRedirectInBody(size: nat, text: string): Option<RscRedirectInfo> {
    if size > MAX_BODY then None
    else
      var markerPos := Find(text, Marker());
      if markerPos.None? then None
      else
        var remaining := text[markerPos.value + |DigestPrefix()|..];
        var end := Find(remaining, ['"']);
        if end.None? then None else ParseDigest(remaining[..end.value])
  }

  // ---------------------------------------------------------------- numerals for a status

  function Zeros(k: nat): string {
    if k == 0 then "" else "0" + Zeros(k - 1)
  }

  /** The text is the number in decimal, with any number of zeros and perhaps a plus sign before it. */
  ghost predicate Denotes(s: string, n: nat) {
    exists k: nat :: s == Zeros(k) + NatText(n) || s == ['+'] + (Zeros(k) + NatText(n))
  }

  lemma {:induction false} ZerosValue(k: nat, n: nat)
    ensures AllDigits(Zeros(k) + NatText(n)) && DigitsValue(Zeros(k) + NatText(n)) == n
  {
    if k == 0 {
      NatTextValue(n);
      assert Zeros(0) + NatText(n) == NatText(n);
    } else {
      ZerosValue(k - 1, n);
      assert Zeros(k) + NatText(n) == ['0'] + (Zeros(k - 1) + NatText(n));
      LeadingZero(Zeros(k - 1) + NatText(n));
    }
  }

  lemma {:induction false} LeadingZero(s: string)
    requires AllDigits(s)
    ensures AllDigits(['0'] + s) && DigitsValue(['0'] + s) == DigitsValue(s)
  {
    var t := ['0'] + s;
    if s == "" {
      assert t[..0] == "";
    } else {
      assert t[..|t| - 1] == ['0'] + s[..|s| - 1] && t[|t| - 1] == s[|s| - 1];
      LeadingZero(s[..|s| - 1]);
    }
  }

  /** Digits are the numeral of their value behind zeros. */
  lemma {:induction false} DigitsDenote(s: string) returns (k: nat)
    requires s != "" && AllDigits(s)
    ensures s == Zeros(k) + NatText(DigitsValue(s))
  {
    var most, last := s[..|s| - 1], s[|s| - 1];
    var v := DigitsValue(s);
    var d := last as int - '0' as int;
    assert v == 10 * DigitsValue(most) + d;
    if most == "" {
      k := 0;
      assert s == [last];
    } else {
      k := DigitsDenote(most);
      var m := DigitsValue(most);
      if m == 0 {
        assert NatText(0) == "0";
        ZerosEnd(k);
        k := k + 1;
        assert most == Zeros(k) && NatText(v) == [last];
      } else {
        assert v / 10 == m && v % 10 == d;
        assert NatText(v) == NatText(m) + [last];
        assert s == most + [last];
      }
      assert s == most + [last];
    }
  }

  lemma {:induction false} ZerosEnd(k: nat)
    ensures Zeros(k) + "0" == Zeros(k + 1)
  {
    if k > 0 {
      ZerosEnd(k - 1);
    }
  }

  /** A status is read as n exactly if it is a numeral for n and n fits 16 bits. */
  lemma ParseU16Exactly(s: string, n: nat)
    ensures ParseU16(s) == Some(n) <==> n < 65536 && Denotes(s, n)
  {
    var digits := if s != "" && s[0] == '+' then s[1..] else s;
    if ParseU16(s) == Some(n) {
      var k := DigitsDenote(digits);
      assert s == digits || s == ['+'] + digits;
    }
    forall k: nat | s == Zeros(k) + NatText(n) || s == ['+'] + (Zeros(k) + NatText(n))
      ensures digits == Zeros(k) + NatText(n) && digits != "" && AllDigits(digits) && DigitsValue(digits) == n
    {
      ZerosValue(k, n);
      assert IsDigit((Zeros(k) + NatText(n))[0]);
    }
  }

  /** A status that reads as a redirect's is a numeral for one of the five codes. */
  lemma ReadsExactly(status: string, code: nat)
    ensures Reads(status, code) <==> code in {301, 302, 303, 307, 308} && Denotes(status, code)
  {
    ParseU16Exactly(status, code);
  }

  // ---------------------------------------------------------------- what is detected

  /** The digest a redirect is serialized to, with the status as it is written. */
  function Digest(info: RscRedirectInfo, status: string): string {
    RedirectName() + [';'] + (info.redirectType + [';'] + (info.url + [';'] + (status + [';'])))
  }

  predicate Reads(status: string, code: nat) {
    ParseU16(status) == Some(code) && IsRedirectStatus(code)
  }

  lemma NamePlain()
    ensures ';' !in RedirectName() && '"' !in RedirectName()
  {}

  lemma TypePlain(t: string)
    requires IsRedirectType(t)
    ensures ';' !in t && '"' !in t
  {
    assert forall i :: 0 <= i < |t| ==> 'a' <= t[i] <= 'z';
  }

  lemma StatusPlain(status: string)
    requires ParseU16(status).Some?
    ensures ';' !in status && '"' !in status
  {
    var digits := if status != "" && status[0] == '+' then status[1..] else status;
    assert forall i :: 0 <= i < |status| ==> status[i] == '+' || IsDigit(status[i]) by {
      assert forall i :: 1 <= i < |status| && status[0] == '+' ==> status[i] == digits[i - 1];
    }
  }

  lemma SplitDigest(info: RscRedirectInfo, status: string)
    requires IsRedirectType(info.redirectType) && Reads(status, info.statusCode)
    ensures Split(Digest(info, status), ';')
            == [RedirectName()] + ([info.redirectType] + (Split(info.url, ';') + ([status] + [""])))
  {
    NamePlain();
    TypePlain(info.redirectType);
    StatusPlain(status);
    hide RedirectName, IsRedirectType, Reads, Split;
    var c := status + [';'];
    var b := info.url + [';'] + c;
    SplitPart(RedirectName(), info.redirectType + [';'] + b);
    SplitPart(info.redirectType, b);
    SplitAt(info.url, c, ';');
    assert c == status + [';'] + "";
    SplitPart(status, "");
    SplitPlain("", ';');
  }

  lemma SplitPart(part: string, rest: string)
    requires ';' !in part
    ensures Split(part + [';'] + rest, ';') == [part] + Split(rest, ';')
  {
    SplitAt(part, rest, ';');
    SplitPlain(part, ';');
  }

  /** Printing a redirect and parsing the digest gives it back, whatever semicolons its address holds. */
  lemma DigestRoundTrip(info: RscRedirectInfo, status: string)
    requires IsRedirectType(info.redirectType) && Reads(status, info.statusCode)
    ensures ParseDigest(Digest(info, status)) == Some(info)
  {
    SplitDigest(info, status);
    hide RedirectName, IsRedirectType, ParseU16, Split, Digest;
    var urls := Split(info.url, ';');
    var parts := Split(Digest(info, status), ';');
    assert |urls| >= 1;
    assert parts == [RedirectName(), info.redirectType] + urls + [status, ""];
    assert parts[2..|parts| - 2] == urls;
    JoinSplit(info.url, ';');
  }

  lemma JoinPrefix(part: string, rest: seq<string>)
    requires |rest| > 0
    ensures Join([part] + rest, ';') == part + [';'] + Join(rest, ';')
  {
    assert ([part] + rest)[1..] == rest;
  }

  lemma {:induction false} JoinConcat(a: seq<string>, b: seq<string>)
    requires |a| > 0 && |b| > 0
    ensures Join(a + b, ';') == Join(a, ';') + [';'] + Join(b, ';')
  {
    if |a| == 1 {
      assert a + b == [a[0]] + b;
      JoinPrefix(a[0], b);
    } else {
      JoinConcat(a[1..], b);
      assert a + b == [a[0]] + (a[1..] + b);
      JoinPrefix(a[0], a[1..] + b);
      assert a == [a[0]] + a[1..];
      JoinPrefix(a[0], a[1..]);
    }
  }

  /** Only printed redirects parse, up to how the status is written. */
  lemma DigestSound(digest: string, info: RscRedirectInfo) returns (status: string)
    requires ParseDigest(digest) == Some(info)
    ensures IsRedirectType(info.redirectType) && Reads(status, info.statusCode) && digest == Digest(info, status)
  {
    hide RedirectName, IsRedirectType, ParseU16, Split;
    var parts := Split(digest, ';');
    var n := |parts|;
    status := parts[n - 2];
    JoinSplit(digest, ';');
    var urls := parts[2..n - 2];
    assert parts == [parts[0]] + ([parts[1]] + (urls + [status, ""]));
    JoinPrefix(parts[0], [parts[1]] + (urls + [status, ""]));
    JoinPrefix(parts[1], urls + [status, ""]);
    JoinConcat(urls, [status, ""]);
    assert [status, ""] == [status] + [""];
    JoinPrefix(status, [""]);
    assert status + [';'] + "" == status + [';'];
  }

  /** What the body must look like: the first marker opens this digest, and the digest ends in a quote. */
  ghost predicate Announces(text: string, info: RscRedirectInfo, status: string, at: nat) {
    && (info.redirectType == "push" || info.redirectType == "replace") && '"' !in info.url
    && info.statusCode in {301, 302, 303, 307, 308} && Denotes(status, info.statusCode)
    && at <= |text|
    && DigestPrefix() + Digest(info, status) + ['"'] <= text[at..]
    && forall j :: 0 <= j < at ==> !OccursAt(text, Marker(), j)
  }

  lemma QuoteAt(s: string, i: nat)
    requires i < |s| && s[i] == '"' && '"' !in s[..i]
    ensures Find(s, ['"']) == Some(i)
  {
    assert s[i..i + 1] == ['"'];
    assert OccursAt(s, ['"'], i);
    forall j | 0 <= j < i
      ensures !OccursAt(s, ['"'], j)
    {
      assert s[j] == s[..i][j];
      assert s[j..j + 1] == [s[j]];
    }
  }

  lemma QuoteFound(s: string, i: nat)
    requires Find(s, ['"']) == Some(i)
    ensures i < |s| && s[i] == '"' && '"' !in s[..i]
  {
    assert s[i..i + 1] == ['"'];
    assert s[i] == s[i..i + 1][0];
    forall j | 0 <= j < i
      ensures s[j] != '"'
    {
      assert !OccursAt(s, ['"'], j);
      assert s[j..j + 1] == [s[j]];
    }
  }

  lemma DigestHasNoQuote(info: RscRedirectInfo, status: string)
    requires IsRedirectType(info.redirectType) && Reads(status, info.statusCode)
    ensures '"' in Digest(info, status) <==> '"' in info.url
    ensures RedirectName() + [';'] <= Digest(info, status)
  {
    NamePlain();
    TypePlain(info.redirectType);
    StatusPlain(status);
    hide RedirectName, IsRedirectType, ParseU16;
  }

  lemma MarkerStarts(text: string, info: RscRedirectInfo, status: string, at: nat)
    requires Announces(text, info, status, at)
    ensures Find(text, Marker()) == Some(at)
  {
    ReadsExactly(status, info.statusCode);
    DigestHasNoQuote(info, status);
    hide RedirectName, DigestPrefix, Digest, Reads, IsRedirectType;
    var whole := DigestPrefix() + Digest(info, status) + ['"'];
    assert Marker() <= DigestPrefix() + Digest(info, status) by {
      assert Digest(info, status) == (RedirectName() + [';']) + Digest(info, status)[|RedirectName()| + 1..];
    }
    assert Marker() <= whole;
    assert text[at..at + |Marker()|] == text[at..][..|Marker()|] == Marker();
    assert OccursAt(text, Marker(), at);
  }

  /** A redirect is detected in every body within the size cap that announces it. */
  lemma AnnouncedIsDetected(size: nat, text: string, info: RscRedirectInfo, status: string, at: nat)
    requires size <= MAX_BODY && Announces(text, info, status, at)
    ensures DetectRscRedirectInBody(size, text) == Some(info)
  {
    MarkerStarts(text, info, status, at);
    ReadsExactly(status, info.statusCode);
    DigestHasNoQuote(info, status);
    DigestRoundTrip(info, status);
    hide RedirectName, DigestPrefix, Digest, Reads, IsRedirectType, ParseDigest, Find, Marker;
    var digest := Digest(info, status);
    var remaining := text[at + |DigestPrefix()|..];
    assert text[at..][|DigestPrefix()|..] == remaining;
    assert digest + ['"'] <= remaining by {
      assert DigestPrefix() + digest + ['"'] == DigestPrefix() + (digest + ['"']);
    }
    assert remaining[..|digest|] == digest && remaining[|digest|] == '"';
    QuoteAt(remaining, |digest|);
  }

  lemma DetectedTerms(info: RscRedirectInfo, status: string)
    requires IsRedirectType(info.redirectType) && Reads(status, info.statusCode)
    ensures info.redirectType == "push" || info.redirectType == "replace"
    ensures info.statusCode in {301, 302, 303, 307, 308} && Denotes(status, info.statusCode)
  {
    ReadsExactly(status, info.statusCode);
  }

  /** And nothing else is: a detected redirect is announced. */
  lemma DetectedIsAnnounced(size: nat, text: string, info: RscRedirectInfo) returns (status: string, at: nat)
    requires DetectRscRedirectInBody(size, text) == Some(info)
    ensures size <= MAX_BODY && Announces(text, info, status, at)
  {
    hide RedirectName, DigestPrefix, Digest, Reads, IsRedirectType, ParseDigest;
    at := Find(text, Marker()).value;
    var remaining := text[at + |DigestPrefix()|..];
    var end := Find(remaining, ['"']).value;
    QuoteFound(remaining, end);
    var digest := remaining[..end];
    status := DigestSound(digest, info);
    DetectedTerms(info, status);
    DigestHasNoQuote(info, status);
    assert text[at..at + |Marker()|] == Marker();
    PrefixThere(text, at, digest, end);
  }

  lemma PrefixThere(text: string, at: nat, digest: string, end: nat)
    requires OccursAt(text, Marker(), at)
    requires var remaining := text[at + |DigestPrefix()|..];
             end < |remaining| && remaining[end] == '"' && digest == remaining[..end]
    ensures DigestPrefix() + digest + ['"'] <= text[at..]
  {
    hide DigestPrefix, RedirectName;
    var m := |DigestPrefix()|;
    var there := text[at..];
    assert there[..m] == text[at..at + |Marker()|][..m] == Marker()[..m] == DigestPrefix();
    assert there[m..] == text[at + m..];
    assert there[m..][..end + 1] == digest + ['"'];
    assert there == there[..m] + there[m..];
  }

  /**
   * Detection, exactly: a body within the cap whose first marker opens the digest of this redirect, the
   * address free of quotes but not of semicolons, and no other body.
   */
  lemma DetectsExactly(size: nat, text: string, info: RscRedirectInfo)
    ensures DetectRscRedirectInBody(size, text) == Some(info)
            <==> size <= 1_048_576 && exists status, at :: Announces(text, info, status, at)
  {
    if DetectRscRedirectInBody(size, text) == Some(info) {
      var status, at := DetectedIsAnnounced(size, text, info);
    }
    hide Announces;
    forall status, at | size <= 1_048_576 && Announces(text, info, status, at)
      ensures DetectRscRedirectInBody(size, text) == Some(info)
    {
      AnnouncedIsDetected(size, text, info, status, at);
    }
  }

  /** The status as the framework prints it reads back as itself. */
  lemma PrintedStatusReads(code: nat)
    requires IsRedirectStatus(code)
    ensures Reads(NatText(code), code)
  {
    NatTextValue(code);
    var s := NatText(code);
    assert IsDigit(s[0]);
  }
}
