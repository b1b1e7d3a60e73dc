// The few string operations the registry and its command-line tool use, on strings of characters.
module Text {

  // strings.TrimPrefix
  function TrimPrefix(s: string, prefix: string): string {
    if prefix <= s then s[|prefix|..] else s
  }

  // oci.StripScheme: https first, then http.
  function StripScheme(raw: string): string {
    TrimPrefix(TrimPrefix(raw, "https://"), "http://")
  }

  // Of a URL the host is left, unless what follows https:// has the second scheme in turn.
  lemma SchemeStripped(host: string)
    ensures StripScheme("http://" + host) == host
    ensures StripScheme("https://" + host) == host <==> !("http://" <= host)
    ensures StripScheme(host) == host <==> !("http://" <= host) && !("https://" <= host)
  {
    assert "http://"[4] == ':' && "https://"[4] == 's';
    assert !("https://" <= "http://" + host) by { assert ("http://" + host)[4] == ':'; }
    assert ("http://" + host)[7..] == host && ("https://" + host)[8..] == host;
  }

  // strings.TrimRight for one character
  function TrimEnd(s: string, c: char): (r: string)
    ensures r <= s && (r != "" ==> r[|r| - 1] != c)
    ensures r == s <==> s == "" || s[|s| - 1] != c
  {
    if s != "" && s[|s| - 1] == c then TrimEnd(s[..|s| - 1], c) else s
  }

  // strings.Index for one character; -1 when it does not occur.
  function Index(s: string, c: char): (i: int)
    ensures -1 <= i < |s|
    ensures i == -1 <==> c !in s
    ensures i >= 0 ==> s[i] == c && c !in s[..i]
  {
    if s == "" then -1
    else if s[0] == c then 0
    else
      var i := Index(s[1..], c);
      assert i >= 0 ==> s[..i + 1] == [s[0]] + s[1..][..i];
      if i < 0 then -1 else i + 1
  }

  // strings.LastIndex for one character; -1 when it does not occur.
  function LastIndex(s: string, c: char): (i: int)
    ensures -1 <= i < |s|
    ensures i == -1 <==> c !in s
    ensures i >= 0 ==> s[i] == c && c !in s[i + 1..]
  {
    if s == "" then -1
    else if s[|s| - 1] == c then |s| - 1
    else
      var i := LastIndex(s[..|s| - 1], c);
      assert s == s[..|s| - 1] + [s[|s| - 1]];
      assert i >= 0 ==> s[i + 1..] == s[..|s| - 1][i + 1..] + [s[|s| - 1]];
      i
  }

  // The name after the last slash.
  function BaseName(s: string): string {
    s[LastIndex(s, '/') + 1..]
  }

  lemma {:induction false} LastIndexOfLast(a: string, c: char, b: string)
    requires c !in b
    ensures LastIndex(a + [c] + b, c) == |a|
    decreases |b|
  {
    var s := a + [c] + b;
    if b == "" {
      assert s[|s| - 1] == c;
    } else {
      assert s[|s| - 1] == b[|b| - 1] && s[..|s| - 1] == a + [c] + b[..|b| - 1];
      LastIndexOfLast(a, c, b[..|b| - 1]);
    }
  }

  lemma BaseNameCut(dir: string, name: string)
    ensures BaseName(name) == name <==> '/' !in name
    ensures BaseName(dir + "/" + name) == name <==> '/' !in name
  {
    hide LastIndex;
    var path := dir + "/" + name;
    if '/' !in name {
      LastIndexOfLast(dir, '/', name);
      assert path[|dir| + 1..] == name;
    } else {
      assert '/' !in BaseName(path);
    }
  }

  // emailToNamespace: what stands before the first '@', or everything.
  function LocalPart(email: string): string {
    if Index(email, '@') >= 0 then email[..Index(email, '@')] else email
  }

  lemma LocalPartCut(name: string, domain: string)
    requires '@' !in name
    ensures LocalPart(name) == name && LocalPart(name + "@" + domain) == name
  {
    hide Index;
    IndexOfFirst(name, '@', domain);
    assert (name + "@" + domain)[..|name|] == name;
  }

  // strings.Split for one character: never empty.
  function Split(s: string, c: char): (r: seq<string>)
    ensures r != [] && Join(r, c) == s
    decreases |s|
  {
    var i := Index(s, c);
    if i < 0 then [s]
    else
      assert s == s[..i] + [c] + s[i + 1..];
      [s[..i]] + Split(s[i + 1..], c)
  }

  function Join(parts: seq<string>, c: char): string {
    if parts == [] then ""
    else if |parts| == 1 then parts[0]
    else parts[0] + [c] + Join(parts[1..], c)
  }

  lemma {:induction false} SplitParts(s: string, c: char)
    ensures forall p | p in Split(s, c) :: c !in p && forall x | x in p :: x in s
    decreases |s|
  {
    var i := Index(s, c);
    if i >= 0 { SplitParts(s[i + 1..], c); }
  }

  lemma IndexOfFirst(a: string, c: char, b: string)
    requires c !in a
    ensures Index(a + [c] + b, c) == |a|
  {
    var s, i := a + [c] + b, Index(a + [c] + b, c);
    assert s[|a|] == c && s[..|a|] == a;
    assert forall j | 0 <= j < i :: s[j] in s[..i];
  }

  // Splitting undoes joining when no part holds the separator.
  lemma {:induction false} SplitJoin(parts: seq<string>, c: char)
    requires parts != [] && forall p | p in parts :: c !in p
    ensures Split(Join(parts, c), c) == parts
  {
    if |parts| == 1 {
    } else {
      var rest := Join(parts[1..], c);
      IndexOfFirst(parts[0], c, rest);
      var s := parts[0] + [c] + rest;
      assert s[..|parts[0]|] == parts[0] && s[|parts[0]| + 1..] == rest;
      SplitJoin(parts[1..], c);
    }
  }

  // unicode.IsSpace
  predicate IsSpace(c: char) {
    var n := c as int;
    || 9 <= n <= 13 || 0x2000 <= n <= 0x200A
    || n in [32, 0x85, 0xA0, 0x1680, 0x2028, 0x2029, 0x202F, 0x205F, 0x3000]
  }

  predicate Trimmed(s: string) { s != "" ==> !IsSpace(s[0]) && !IsSpace(s[|s| - 1]) }

  function TrimLeft(s: string): (r: string)
    ensures |r| <= |s| && s[|s| - |r|..] == r && (s != "" && !IsSpace(s[0]) ==> r == s)
    ensures r != "" ==> !IsSpace(r[0]) && r[|r| - 1] == s[|s| - 1]
  {
    if s != "" && IsSpace(s[0]) then TrimLeft(s[1..]) else s
  }

  function TrimRight(s: string): (r: string)
    ensures r <= s && (r != "" ==> !IsSpace(r[|r| - 1]))
    ensures s != "" && !IsSpace(s[|s| - 1]) ==> r == s
  {
    if s != "" && IsSpace(s[|s| - 1]) then TrimRight(s[..|s| - 1]) else s
  }

  // strings.TrimSpace
  function TrimSpace(s: string): (r: string)
    ensures Trimmed(r) && (Trimmed(s) ==> r == s)
  {
    TrimRight(TrimLeft(s))
  }

  // White space on both sides goes, and nothing else.
  lemma {:induction false} TrimsSpace(before: string, s: string, after: string)
    requires Trimmed(s) && forall c | c in before + after :: IsSpace(c)
    ensures TrimSpace(before + s + after) == s
    decreases |before|
  {
    hide IsSpace;
    var text := before + s + after;
    if before != "" {
      assert text[0] == before[0] && before[0] in before + after;
      assert text[1..] == before[1..] + s + after;
      forall c | c in before[1..] + after ensures IsSpace(c) { assert c in before + after; }
      TrimsSpace(before[1..], s, after);
    } else {
      assert text == s + after;
      if s == "" { AllSpace(after); } else { assert TrimLeft(text) == text; TrimsRight(s, after); }
    }
  }

  lemma {:induction false} AllSpace(s: string)
    requires forall c | c in s :: IsSpace(c)
    ensures TrimLeft(s) == ""
  {
    hide IsSpace;
    if s != "" { AllSpace(s[1..]); }
  }

  lemma {:induction false} TrimsRight(s: string, after: string)
    requires s != "" && !IsSpace(s[|s| - 1]) && forall c | c in after :: IsSpace(c)
    ensures TrimRight(s + after) == s
    decreases |after|
  {
    hide IsSpace;
    if after == "" {
      assert s + after == s;
    } else {
      assert (s + after)[..|s + after| - 1] == s + after[..|after| - 1];
      TrimsRight(s, after[..|after| - 1]);
    }
  }

  lemma TrimmedChars(s: string)
    ensures forall c | c in TrimSpace(s) :: c in s
  {
    var left := TrimLeft(s);
    assert forall c | c in left :: c in s[|s| - |left|..];
  }
}
