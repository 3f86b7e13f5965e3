/**
 * The regular expressions the record form validates names and record data
 * with, written out as predicates over characters and label sequences.
 *
 * Each predicate states what Python's `re.match` accepts: the match is
 * anchored at the start only, so a pattern without `$` accepts any tail;
 * `$` also matches just before a final newline; and `.` inside the
 * `(?!.{255,})` look-ahead does not match a newline. `\s` is taken as the
 * six ASCII whitespace characters.
 */
module DnsNames {
  import opened Json

  predicate IsDigit(c: char)
  {
    '0' <= c <= '9'
  }

  /** `[A-Za-z0-9_\-]` */
  predicate IsLabelChar(c: char)
  {
    'A' <= c <= 'Z' || 'a' <= c <= 'z' || IsDigit(c) || c == '_' || c == '-'
  }

  /** `[0-9a-fA-F]` */
  predicate IsHexDigit(c: char)
  {
    IsDigit(c) || 'a' <= c <= 'f' || 'A' <= c <= 'F'
  }

  /** `\s` */
  predicate IsSpace(c: char)
  {
    c == ' ' || c == '\t' || c == '\n' || c == '\r' || c == '\U{000B}' || c == '\U{000C}'
  }

  predicate AllLabelChars(s: string)
  {
    forall i :: 0 <= i < |s| ==> IsLabelChar(s[i])
  }

  predicate AllDigits(s: string)
  {
    forall i :: 0 <= i < |s| ==> IsDigit(s[i])
  }

  predicate AllHex(s: string)
  {
    forall i :: 0 <= i < |s| ==> IsHexDigit(s[i])
  }

  /** The position of the first `c` in `s`, or `|s|` when there is none. */
  function IndexOf(s: string, c: char): (k: nat)
    ensures k <= |s|
    ensures k < |s| ==> s[k] == c
    ensures forall i :: 0 <= i < k ==> s[i] != c
  {
    if s == [] || s[0] == c then 0
    else
      var k := 1 + IndexOf(s[1..], c);
      assert forall i :: 1 <= i < k ==> s[i] == s[1..][i - 1];
      k
  }

  /** Searching a concatenation finds the first `c` of its left part, or
      else the first `c` of its right part. */
  lemma {:induction false} IndexOfConcat(a: string, b: string, c: char)
    ensures IndexOf(a + b, c) == if IndexOf(a, c) < |a| then IndexOf(a, c) else |a| + IndexOf(b, c)
    decreases |a|
  {
    if a == [] {
      assert a + b == b;
    } else if a[0] == c {
      assert (a + b)[0] == c;
    } else {
      assert (a + b)[0] == a[0];
      assert (a + b)[1..] == a[1..] + b;
      IndexOfConcat(a[1..], b, c);
    }
  }

  /** `(?!\-)[A-Za-z0-9_\-]{1,63}(?<!\-)`: one to 63 label characters,
      neither the first nor the last a '-'. */
  predicate ValidLabel(part: string)
  {
    1 <= |part| <= 63 && AllLabelChars(part) && part[0] != '-' && part[|part| - 1] != '-'
  }

  predicate AllValid(labels: seq<string>)
  {
    forall i :: 0 <= i < |labels| ==> ValidLabel(labels[i])
  }

  /** The labels, each followed by a '.'. */
  function Dotted(labels: seq<string>): (s: string)
    ensures labels != [] ==> |s| > 0 && s[|s| - 1] == '.'
  {
    if labels == [] then "" else labels[0] + "." + Dotted(labels[1..])
  }

  /**
   * `(?:L\.)+` matched against the whole of `t`, where each `L` is a valid
   * label; when `star` holds the first `L` may instead be a lone '*' (the
   * `^\*` alternative, which only the group at the start of the string can
   * take). Labels hold no '.', so each group ends at the next '.'.
   */
  predicate Groups(t: string, star: bool)
    decreases |t|
  {
    var k := IndexOf(t, '.');
    k < |t| && (ValidLabel(t[..k]) || (star && t[..k] == "*"))
    && (k + 1 == |t| || Groups(t[k + 1..], false))
  }

  /** `^(?!.{255,})(?:…)+$` with `re.match`: the groups, fewer than 255
      characters, optionally followed by one final newline. */
  predicate FullMatch(s: string, star: bool)
  {
    (|s| < 255 && Groups(s, star))
    || (|s| >= 1 && s[|s| - 1] == '\n' && |s| - 1 < 255 && Groups(s[..|s| - 1], star))
  }

  /** `re.match(DOMAIN_NAME_REGEX, s)` */
  predicate DomainName(s: string)
  {
    FullMatch(s, false)
  }

  /** `re.match(WILDCARD_DOMAIN_NAME_REGEX, s)` */
  predicate WildcardDomainName(s: string)
  {
    FullMatch(s, true)
  }

  /** A dotted sequence of valid labels matches the groups. */
  lemma {:induction false} DottedGroups(labels: seq<string>, star: bool)
    requires |labels| >= 1 && AllValid(labels)
    ensures Groups(Dotted(labels), star)
    decreases |labels|
  {
    var l := labels[0];
    var rest := Dotted(labels[1..]);
    assert Dotted(labels) == l + ("." + rest);
    IndexOfConcat(l, "." + rest, '.');
    assert IndexOf(l, '.') == |l| by {
      if IndexOf(l, '.') < |l| {
        assert IsLabelChar(l[IndexOf(l, '.')]);
      }
    }
    assert (l + ("." + rest))[..|l|] == l;
    assert (l + ("." + rest))[|l| + 1..] == rest;
    if |labels| > 1 {
      DottedGroups(labels[1..], false);
    }
  }

  /** The labels of `t`: the pieces between its dots, up to the last dot. */
  function LabelsOf(t: string): seq<string>
    decreases |t|
  {
    var k := IndexOf(t, '.');
    if k + 1 >= |t| then [t[..k]] else [t[..k]] + LabelsOf(t[k + 1..])
  }

  /** Conversely, whatever matches the groups without the star is the
      dotted sequence of its labels, every one of them valid. */
  lemma {:induction false} GroupsDotted(t: string)
    requires Groups(t, false)
    ensures |LabelsOf(t)| >= 1 && AllValid(LabelsOf(t)) && Dotted(LabelsOf(t)) == t
    decreases |t|
  {
    var k := IndexOf(t, '.');
    var l := t[..k];
    if k + 1 == |t| {
      assert LabelsOf(t) == [l];
      DottedCons(l, []);
      assert t == l + "." + "";
    } else {
      var u := t[k + 1..];
      GroupsDotted(u);
      assert LabelsOf(t) == [l] + LabelsOf(u);
      DottedCons(l, LabelsOf(u));
      AllValidCons(l, LabelsOf(u));
      SplitAt(t, k);
    }
  }

  /** Cutting `t` around its `k`-th character. */
  lemma SplitAt(t: string, k: nat)
    requires k < |t|
    ensures t == t[..k] + [t[k]] + t[k + 1..]
  {
  }

  lemma DottedCons(l: string, rest: seq<string>)
    ensures Dotted([l] + rest) == l + "." + Dotted(rest)
  {
    assert ([l] + rest)[1..] == rest;
  }

  lemma AllValidCons(l: string, rest: seq<string>)
    requires ValidLabel(l) && AllValid(rest)
    ensures AllValid([l] + rest)
  {
    assert forall i :: 1 <= i < |rest| + 1 ==> ([l] + rest)[i] == rest[i - 1];
  }

  /** `DOMAIN_NAME_REGEX` accepts exactly a non-empty dotted sequence of
      valid labels shorter than 255 characters, optionally followed by a
      final newline. */
  lemma DomainNameIff(s: string)
    ensures DomainName(s) <==> exists labels :: |labels| >= 1 && AllValid(labels) && |Dotted(labels)| < 255
                                                 && (s == Dotted(labels) || s == Dotted(labels) + "\n")
  {
    if DomainName(s) {
      if |s| < 255 && Groups(s, false) {
        GroupsDotted(s);
        var labels := LabelsOf(s);
        assert |labels| >= 1 && AllValid(labels) && |Dotted(labels)| < 255 && s == Dotted(labels);
      } else {
        var t := s[..|s| - 1];
        GroupsDotted(t);
        var labels := LabelsOf(t);
        SplitAt(s, |s| - 1);
        assert s == t + "\n";
        assert |labels| >= 1 && AllValid(labels) && |Dotted(labels)| < 255 && s == Dotted(labels) + "\n";
      }
    }
    if exists labels :: |labels| >= 1 && AllValid(labels) && |Dotted(labels)| < 255
                        && (s == Dotted(labels) || s == Dotted(labels) + "\n") {
      var labels :| |labels| >= 1 && AllValid(labels) && |Dotted(labels)| < 255
                    && (s == Dotted(labels) || s == Dotted(labels) + "\n");
      DottedGroups(labels, false);
      if s != Dotted(labels) {
        assert s[..|s| - 1] == Dotted(labels);
      }
    }
  }

  /** With the star allowed, a lone '*' label may come first; nowhere else
      does the wildcard pattern accept more. */
  lemma StarGroups(t: string)
    ensures Groups(t, true) <==> Groups(t, false) || t == "*." || (|t| > 2 && t[..2] == "*." && Groups(t[2..], false))
  {
    var k := IndexOf(t, '.');
    if k < |t| && t[..k] == "*" {
      assert k == 1;
      assert t[..2] == "*.";
      assert !ValidLabel(t[..k]);
    }
    if |t| >= 2 && t[..2] == "*." {
      assert t[0] == '*' && t[1] == '.';
      assert IndexOf(t, '.') == 1 by {
        assert t == [t[0]] + t[1..];
        IndexOfConcat([t[0]], t[1..], '.');
      }
      assert t[..1] == "*";
    }
  }

  /** Every character of a match is a label character or a '.', except a
      '*' in first place when the star is allowed. */
  lemma {:induction false} GroupsChars(t: string, star: bool)
    requires Groups(t, star)
    ensures forall i :: 0 <= i < |t| ==> IsLabelChar(t[i]) || t[i] == '.' || (star && i == 0 && t[i] == '*')
    decreases |t|
  {
    var k := IndexOf(t, '.');
    if k + 1 < |t| {
      GroupsChars(t[k + 1..], false);
      assert forall i :: k + 1 <= i < |t| ==> t[i] == t[k + 1..][i - k - 1];
    }
    assert forall i :: 0 <= i < k ==> t[i] == t[..k][i];
  }

  /** In a match no label is empty or starts or ends with '-': the match
      neither starts with '-' or '.', nor holds "..", "-." or ".-", and it
      ends with '.'. */
  lemma {:induction false} GroupsEdges(t: string, star: bool)
    requires Groups(t, star)
    ensures |t| >= 2 && t[0] != '-' && t[0] != '.' && t[|t| - 1] == '.'
    ensures forall i :: 0 <= i < |t| - 1 && t[i] == '.' ==> t[i + 1] != '.' && t[i + 1] != '-'
    ensures forall i :: 0 <= i < |t| - 1 && t[i] == '-' ==> t[i + 1] != '.'
    decreases |t|
  {
    var k := IndexOf(t, '.');
    assert t[..k][0] == t[0];
    assert t[..k][k - 1] == t[k - 1];
    assert forall i :: 0 <= i < k ==> t[i] == t[..k][i];
    if k + 1 < |t| {
      var u := t[k + 1..];
      GroupsEdges(u, false);
      assert forall i :: k + 1 <= i < |t| ==> t[i] == u[i - k - 1];
    }
  }

  /** The wildcard pattern accepts '*' only as the very first character,
      and never a '-' at the start of any label. */
  lemma WildcardShape(s: string)
    requires WildcardDomainName(s)
    ensures forall i :: 0 < i < |s| ==> s[i] != '*'
    ensures s[0] != '-'
    ensures forall i :: 0 <= i < |s| - 1 && s[i] == '.' ==> s[i + 1] != '-' && s[i + 1] != '.'
    ensures forall i :: 0 <= i < |s| - 1 && s[i] == '-' ==> s[i + 1] != '.'
  {
    if |s| < 255 && Groups(s, true) {
      GroupsChars(s, true);
      GroupsEdges(s, true);
    } else {
      var t := s[..|s| - 1];
      GroupsChars(t, true);
      GroupsEdges(t, true);
      assert s[|s| - 1] == '\n';
      assert s[0] == t[0];
      forall i | 0 < i < |s| ensures s[i] != '*' {
        if i < |t| {
          assert s[i] == t[i];
        }
      }
      forall i | 0 <= i < |s| - 1 && (s[i] == '.' || s[i] == '-')
        ensures s[i] == '.' ==> s[i + 1] != '-' && s[i + 1] != '.'
        ensures s[i] == '-' ==> s[i + 1] != '.'
      {
        assert s[i] == t[i];
        if i + 1 < |t| {
          assert s[i + 1] == t[i + 1];
        }
      }
    }
  }

  /** A match of either name pattern is shorter than 255 characters, not
      counting a final newline. */
  lemma MatchLength(s: string, star: bool)
    requires FullMatch(s, star)
    requires s == [] || s[|s| - 1] != '\n'
    ensures |s| < 255
  {
    if !(|s| < 255 && Groups(s, star)) {
      assert s[|s| - 1] == '\n';
    }
  }

  /** `_[A-Za-z0-9_\-]{1,62}\.` at the start of `s`: the number of
      characters it takes, if it matches. */
  function SrvGroup(s: string): (n: Option<nat>)
    ensures n.Some? ==> 3 <= n.value <= |s| && s[0] == '_' && s[n.value - 1] == '.'
  {
    var k := IndexOf(s, '.');
    if k < |s| && 2 <= k <= 63 && s[0] == '_' && AllLabelChars(s[1..k]) then Some(k + 1) else None
  }

  /** `re.match(SRV_NAME_REGEX, s)`: two such groups at the start of `s`.
      The pattern has no `$`, so anything may follow them. */
  predicate SrvNamePrefix(s: string)
  {
    match SrvGroup(s)
    case None => false
    case Some(n) => SrvGroup(s[n..]).Some?
  }

  /** A group built from an underscore, one to 62 label characters and a
      '.' is taken whole, whatever follows it. */
  lemma SrvGroupOf(service: string, rest: string)
    requires 1 <= |service| <= 62 && AllLabelChars(service)
    ensures SrvGroup("_" + service + "." + rest) == Some(|service| + 2)
  {
    var s := "_" + service + "." + rest;
    assert s == ("_" + service) + ("." + rest);
    IndexOfConcat("_" + service, "." + rest, '.');
    assert IndexOf("_" + service, '.') == |service| + 1;
    assert s[1..|service| + 1] == service;
  }

  /** `SRV_NAME_REGEX` accepts `_service._proto.` followed by anything. */
  lemma SrvNameOf(service: string, proto: string, rest: string)
    requires 1 <= |service| <= 62 && AllLabelChars(service)
    requires 1 <= |proto| <= 62 && AllLabelChars(proto)
    ensures SrvNamePrefix("_" + service + "._" + proto + "." + rest)
  {
    var tail := "_" + proto + "." + rest;
    var s := "_" + service + "._" + proto + "." + rest;
    assert s == "_" + service + "." + tail;
    SrvGroupOf(service, tail);
    assert s[|service| + 2..] == tail;
    SrvGroupOf(proto, rest);
  }

  /** Because the SRV pattern has no `$`, extending an accepted name keeps
      it accepted. */
  lemma SrvNameAnyTail(s: string, tail: string)
    requires SrvNamePrefix(s)
    ensures SrvNamePrefix(s + tail)
  {
    var n := SrvGroup(s).value;
    var k := IndexOf(s, '.');
    IndexOfConcat(s, tail, '.');
    assert (s + tail)[1..k] == s[1..k];
    assert SrvGroup(s + tail) == Some(n);
    var u := s[n..];
    var m := SrvGroup(u).value;
    var j := IndexOf(u, '.');
    assert (s + tail)[n..] == u + tail;
    IndexOfConcat(u, tail, '.');
    assert (u + tail)[1..j] == u[1..j];
  }

  /** The length of the run of digits at the start of `s`. */
  function DigitRun(s: string): (k: nat)
    ensures k <= |s|
    ensures forall i :: 0 <= i < k ==> IsDigit(s[i])
    ensures k < |s| ==> !IsDigit(s[k])
  {
    if s == [] || !IsDigit(s[0]) then 0
    else
      var k := 1 + DigitRun(s[1..]);
      assert forall i :: 1 <= i < k ==> s[i] == s[1..][i - 1];
      k
  }

  /** The number a string of decimal digits denotes. */
  function DecimalValue(d: string): nat
    requires AllDigits(d)
  {
    if d == [] then 0 else DecimalValue(d[..|d| - 1]) * 10 + (d[|d| - 1] as int - '0' as int)
  }

  /** `(?:6553[0-5]|655[0-2][0-9]|65[0-4][0-9]{2}|6[0-4][0-9]{3}|[1-5][0-9]{4}|[1-9][0-9]{1,3}|[0-9])`
      followed by a non-digit: a number from 0 to 65535 without leading zeros. */
  predicate PortNumber(d: string)
  {
    1 <= |d| <= 5 && AllDigits(d) && (|d| == 1 || d[0] != '0') && DecimalValue(d) <= 65535
  }

  /** One `(?:number)\s` field at the start of `s`: the characters it takes. */
  function PortField(s: string): (n: Option<nat>)
    ensures n.Some? ==> 2 <= n.value <= |s|
  {
    var k := DigitRun(s);
    if k < |s| && PortNumber(s[..k]) && IsSpace(s[k]) then Some(k + 1) else None
  }

  /** `re.match(SRV_DATA_REGEX, s)`: two numeric fields, then a domain name. */
  predicate SrvData(s: string)
  {
    match PortField(s)
    case None => false
    case Some(n) =>
      match PortField(s[n..])
      case None => false
      case Some(m) => DomainName(s[n..][m..])
  }

  /** The digits of a number denote that number. */
  lemma {:induction false} DecimalRoundTrip(n: nat)
    ensures AllDigits(NatToDecimal(n))
    ensures DecimalValue(NatToDecimal(n)) == n
    decreases n
  {
    var d := NatToDecimal(n);
    if n < 10 {
      DigitCharValue(n);
    } else {
      DecimalRoundTrip(n / 10);
      DigitCharValue(n % 10);
      assert d[..|d| - 1] == NatToDecimal(n / 10);
    }
  }

  lemma DigitCharValue(d: nat)
    requires d < 10
    ensures DigitChar(d) as int - '0' as int == d
  {
    if d == 0 {} else if d == 1 {} else if d == 2 {} else if d == 3 {} else if d == 4 {}
    else if d == 5 {} else if d == 6 {} else if d == 7 {} else if d == 8 {} else {}
  }

  /** Only zero is written with a leading '0'. */
  lemma {:induction false} DecimalNoLeadingZero(n: nat)
    ensures n >= 1 ==> NatToDecimal(n)[0] != '0'
    decreases n
  {
    if n >= 10 {
      DecimalNoLeadingZero(n / 10);
      assert NatToDecimal(n)[0] == NatToDecimal(n / 10)[0];
    } else if n >= 1 {
      DigitCharValue(n);
    }
  }

  /** A number below 100000 takes at most five digits. */
  lemma {:induction false} DecimalShort(n: nat, width: nat, bound: nat)
    requires width >= 1 && bound == Pow10(width) && n < bound
    ensures |NatToDecimal(n)| <= width
    decreases width
  {
    if n >= 10 {
      assert width >= 2;
      DecimalShort(n / 10, width - 1, Pow10(width - 1));
    }
  }

  function Pow10(k: nat): nat
  {
    if k == 0 then 1 else 10 * Pow10(k - 1)
  }

  /** A number's digits form a port number exactly when it is at most 65535. */
  lemma PortNumberOf(n: nat)
    ensures PortNumber(NatToDecimal(n)) <==> n <= 65535
  {
    DecimalRoundTrip(n);
    DecimalNoLeadingZero(n);
    if n <= 65535 {
      assert Pow10(5) == 100000;
      DecimalShort(n, 5, 100000);
    }
  }

  /** The field made of a number's digits and a space takes exactly those
      characters, and matches exactly when the number is at most 65535. */
  lemma PortFieldOf(n: nat, rest: string)
    ensures PortField(NatToDecimal(n) + " " + rest) == if n <= 65535 then Some(|NatToDecimal(n)| + 1) else None
  {
    DecimalRoundTrip(n);
    PortNumberOf(n);
    PortFieldDigits(NatToDecimal(n), rest);
  }

  /** A field made of digits and a space takes exactly those characters,
      and matches exactly when the digits are a port number. */
  lemma PortFieldDigits(d: string, rest: string)
    requires AllDigits(d)
    ensures PortField(d + " " + rest) == if PortNumber(d) then Some(|d| + 1) else None
  {
    var s := d + " " + rest;
    assert DigitRun(s) == |d| by {
      DigitRunConcat(d, " " + rest);
      assert s == d + (" " + rest);
    }
    assert s[..|d|] == d;
  }

  lemma {:induction false} DigitRunConcat(d: string, rest: string)
    requires AllDigits(d)
    requires rest != [] && !IsDigit(rest[0])
    ensures DigitRun(d + rest) == |d|
    decreases |d|
  {
    if d != [] {
      assert (d + rest)[1..] == d[1..] + rest;
      DigitRunConcat(d[1..], rest);
    }
  }

  /** `SRV_DATA_REGEX` accepts "first second target" exactly when both
      numbers are at most 65535 and the target is a domain name. */
  lemma SrvDataOf(first: nat, second: nat, target: string)
    ensures SrvData(NatToDecimal(first) + " " + NatToDecimal(second) + " " + target)
            <==> first <= 65535 && second <= 65535 && DomainName(target)
  {
    var a := NatToDecimal(first);
    var b := NatToDecimal(second);
    DecimalRoundTrip(first);
    DecimalRoundTrip(second);
    PortNumberOf(first);
    PortNumberOf(second);
    SrvDataDigits(a, b, target);
  }

  /** SRV data read field by field, whatever the digits of its two numbers. */
  lemma SrvDataDigits(a: string, b: string, target: string)
    requires AllDigits(a) && AllDigits(b)
    ensures SrvData(a + " " + b + " " + target) <==> PortNumber(a) && PortNumber(b) && DomainName(target)
  {
    var rest := b + " " + target;
    var s := a + " " + rest;
    assert a + " " + b + " " + target == s;
    PortFieldDigits(a, rest);
    if PortNumber(a) {
      assert s[|a| + 1..] == rest;
      PortFieldDigits(b, target);
      if PortNumber(b) {
        assert rest[|b| + 1..] == target;
      }
    }
  }

  /** `re.match(SSHFP_DATA_REGEX, s)`: an algorithm digit 1-4, a
      fingerprint-type digit 1-2, each followed by whitespace, then a
      fingerprint of 5 to 40 or of exactly 64 hexadecimal digits, and at
      most a final newline after it. */
  predicate SshfpData(s: string)
  {
    |s| >= 4 && '1' <= s[0] <= '4' && IsSpace(s[1]) && '1' <= s[2] <= '2' && IsSpace(s[3])
    && var fingerprint := if |s| > 4 && s[|s| - 1] == '\n' then s[4..|s| - 1] else s[4..];
       AllHex(fingerprint) && (5 <= |fingerprint| <= 40 || |fingerprint| == 64)
  }

  /** A SHA-1 (40 digits) or SHA-256 (64 digits) fingerprint is accepted;
      a fingerprint of 41 to 63 digits is not. */
  lemma SshfpFingerprintLength(algorithm: char, kind: char, fingerprint: string)
    requires '1' <= algorithm <= '4' && '1' <= kind <= '2'
    requires AllHex(fingerprint)
    ensures SshfpData([algorithm, ' ', kind, ' '] + fingerprint) <==> 5 <= |fingerprint| <= 40 || |fingerprint| == 64
  {
    var s := [algorithm, ' ', kind, ' '] + fingerprint;
    assert s[4..] == fingerprint;
    if |s| > 4 {
      assert s[|s| - 1] == fingerprint[|fingerprint| - 1];
    }
  }
}
