/** Derivation of the client address reported to the destination: the first
    entry of the forwarded-address chain, trimmed, else the real-IP header,
    else the literal "unknown". Header names are the lower-case names the
    HTTP server gives them; an absent header has no key. */
module ClientAddress {
  import Json

  /** The characters `String.prototype.trim` removes (section 22.1.3.32 of
      ECMA-262 together with its WhiteSpace and LineTerminator productions):
      TAB, VT, FF, SP, NBSP, ZWNBSP, every Zs space separator, LF, CR, LS and PS. */
  predicate IsJsWhitespace(c: char) {
    c in {'\U{0009}', '\U{000A}', '\U{000B}', '\U{000C}', '\U{000D}', '\U{0020}',
          '\U{00A0}', '\U{1680}', '\U{2000}', '\U{2001}', '\U{2002}', '\U{2003}',
          '\U{2004}', '\U{2005}', '\U{2006}', '\U{2007}', '\U{2008}', '\U{2009}',
          '\U{200A}', '\U{2028}', '\U{2029}', '\U{202F}', '\U{205F}', '\U{3000}',
          '\U{FEFF}'}
  }

  predicate AllWhitespace(s: string) {
    forall k :: 0 <= k < |s| ==> IsJsWhitespace(s[k])
  }

  /** The length of the run of whitespace that opens `s`. */
  function LeadingWhitespace(s: string): (n: nat)
    ensures n <= |s| && AllWhitespace(s[..n])
    ensures n < |s| ==> !IsJsWhitespace(s[n])
  {
    if s != [] && IsJsWhitespace(s[0]) then
      var n := 1 + LeadingWhitespace(s[1..]);
      assert forall k :: 1 <= k < n ==> s[k] == s[1..][k - 1];
      n
    else 0
  }

  /** Where the run of whitespace that closes `s` begins. */
  function TrailingWhitespace(s: string): (m: nat)
    ensures m <= |s| && AllWhitespace(s[m..])
    ensures m > 0 ==> !IsJsWhitespace(s[m - 1])
  {
    if s != [] && IsJsWhitespace(s[|s| - 1]) then
      var m := TrailingWhitespace(s[..|s| - 1]);
      assert forall k :: m <= k < |s| - 1 ==> s[k] == s[..|s| - 1][k];
      m
    else |s|
  }

  /** `s.trim()`: `s` with its leading and trailing whitespace removed and
      nothing else changed. */
  function Trim(s: string): (r: string)
    ensures r != [] ==> !IsJsWhitespace(r[0]) && !IsJsWhitespace(r[|r| - 1])
    ensures forall c :: c in r ==> c in s
    ensures exists i :: 0 <= i <= |s| - |r| && r == s[i..i + |r|]
                        && AllWhitespace(s[..i]) && AllWhitespace(s[i + |r|..])
  {
    var i := LeadingWhitespace(s);
    var t := s[i..];
    var j := TrailingWhitespace(t);
    assert t[..j] == s[i..i + j] && t[j..] == s[i + j..];
    assert forall k :: 0 <= k < j ==> t[..j][k] == s[i + k];
    t[..j]
  }

  /** `s.split(',')[0]`: everything before the first comma, or all of `s`
      when it has none. */
  function FirstSegment(s: string): (r: string)
    ensures |r| <= |s| && r == s[..|r|]
    ensures ',' !in r
    ensures |r| < |s| ==> s[|r|] == ','
  {
    if s == [] || s[0] == ',' then []
    else [s[0]] + FirstSegment(s[1..])
  }

  /** A header's value when it is present and non-empty (truthy). */
  predicate HasValue(headers: map<string, string>, name: string): (present: bool)
    ensures present <==> name in headers && Json.Truthy(Json.Str(headers[name]))
  {
    name in headers && headers[name] != ""
  }

  /** The client address the handler derives from the request headers. A
      non-empty forwarded chain always wins, even when its first entry is
      blank. */
  function ClientIp(headers: map<string, string>): (ip: string)
    ensures HasValue(headers, "x-forwarded-for") ==>
              ip == Trim(FirstSegment(headers["x-forwarded-for"]))
              && ',' !in ip
              && (ip != [] ==> !IsJsWhitespace(ip[0]) && !IsJsWhitespace(ip[|ip| - 1]))
    ensures !HasValue(headers, "x-forwarded-for") && HasValue(headers, "x-real-ip") ==>
              ip == headers["x-real-ip"]
    ensures !HasValue(headers, "x-forwarded-for") && !HasValue(headers, "x-real-ip") ==>
              ip == "unknown"
  {
    if HasValue(headers, "x-forwarded-for") then
      var segment := FirstSegment(headers["x-forwarded-for"]);
      Trim(segment)
    else if HasValue(headers, "x-real-ip") then headers["x-real-ip"]
    else "unknown"
  }

  // ---------------------------------------------------------------------
  // Properties of the pieces

  /** Trimming a string that neither opens nor closes with whitespace leaves
      it unchanged. */
  lemma TrimUnpadded(s: string)
    requires s != [] ==> !IsJsWhitespace(s[0]) && !IsJsWhitespace(s[|s| - 1])
    ensures Trim(s) == s
  {
    var r := Trim(s);
    var i :| 0 <= i <= |s| - |r| && r == s[i..i + |r|]
             && AllWhitespace(s[..i]) && AllWhitespace(s[i + |r|..]);
  }

  /** A string of nothing but whitespace trims to the empty string. */
  lemma TrimBlank(s: string)
    requires AllWhitespace(s)
    ensures Trim(s) == ""
  {
    var r := Trim(s);
    var i :| 0 <= i <= |s| - |r| && r == s[i..i + |r|];
  }

  /** Trimming twice is trimming once. */
  lemma TrimIdempotent(s: string)
    ensures Trim(Trim(s)) == Trim(s)
  {
    TrimUnpadded(Trim(s));
  }

  /** The first segment of `a + "," + b` is `a` when `a` has no comma. */
  lemma {:induction false} FirstSegmentBeforeComma(a: string, b: string)
    requires ',' !in a
    ensures FirstSegment(a + "," + b) == a
  {
    if a != [] {
      assert (a + "," + b)[1..] == a[1..] + "," + b;
      FirstSegmentBeforeComma(a[1..], b);
    }
  }

  /** A chain whose first entry carries no comma and no surrounding
      whitespace yields that entry unaltered, whatever follows it. */
  lemma FirstEntryOfChain(headers: map<string, string>, first: string, rest: string)
    requires ',' !in first && first != []
    requires !IsJsWhitespace(first[0]) && !IsJsWhitespace(first[|first| - 1])
    requires "x-forwarded-for" in headers && headers["x-forwarded-for"] == first + "," + rest
    ensures ClientIp(headers) == first
  {
    FirstSegmentBeforeComma(first, rest);
    TrimUnpadded(first);
  }

  /** The chain "2001:db8::1, 10.0.0.1" yields its first entry, the IPv6
      address, unaltered. */
  lemma ForwardedIpv6FirstEntry()
    ensures ClientIp(map["x-forwarded-for" := "2001:db8::1, 10.0.0.1"]) == "2001:db8::1"
  {
    FirstEntryOfChain(map["x-forwarded-for" := "2001:db8::1, 10.0.0.1"], "2001:db8::1", " 10.0.0.1");
  }

  /** A non-empty chain whose first entry is blank (empty, or whitespace
      only, with or without a comma after it) yields "", not the real-IP
      fallback. */
  lemma BlankFirstEntry(headers: map<string, string>)
    requires HasValue(headers, "x-forwarded-for")
    requires AllWhitespace(FirstSegment(headers["x-forwarded-for"]))
    ensures ClientIp(headers) == ""
  {
    TrimBlank(FirstSegment(headers["x-forwarded-for"]));
  }
}
