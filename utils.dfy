/** The helpers of pkg/utils/utils.go: string clean-up and validation, the
    "host:port" parser, password masking and the generic slice helpers.
    A character stands for one byte where the source measures `len`. */
module Utils {

  import opened Types
  import opened GoStd
  import opened Errors

  // ---------------------------------------------------------------------
  // TruncateString

  /** TruncateString: a string that fits is returned as it is; otherwise it
      is cut to `maxLen` characters, the last three of which become "..."
      when there is room for them. A negative `maxLen` makes the source
      panic on the slice, hence the precondition. */
  function TruncateString(s: string, maxLen: int): (r: string)
    requires maxLen >= 0
    ensures |s| <= maxLen ==> r == s
    ensures |s| > maxLen ==> |r| == maxLen
    ensures |s| > maxLen && maxLen <= 3 ==> r == s[..maxLen]
    ensures |s| > maxLen && maxLen > 3 ==> r[..maxLen - 3] == s[..maxLen - 3] && r[maxLen - 3..] == "..."
  {
    if |s| <= maxLen then s
    else if maxLen <= 3 then s[..maxLen]
    else s[..maxLen - 3] + "..."
  }

  /** Truncating twice to the same length changes nothing more. */
  lemma TruncateIdempotent(s: string, maxLen: int)
    requires maxLen >= 0
    ensures TruncateString(TruncateString(s, maxLen), maxLen) == TruncateString(s, maxLen)
  {
  }

  // ---------------------------------------------------------------------
  // SanitizeString

  /** The characters SanitizeString keeps: no C0 control character and no DEL. */
  predicate Printable(c: char) { c as int >= 32 && c as int != 127 }

  /** The printable characters of `s`, in order. */
  function Sanitized(s: string): (r: string)
    ensures |r| <= |s|
    ensures forall i :: 0 <= i < |r| ==> Printable(r[i])
  {
    if s == [] then []
    else if Printable(s[|s| - 1]) then Sanitized(s[..|s| - 1]) + [s[|s| - 1]]
    else Sanitized(s[..|s| - 1])
  }

  /** Sanitizing distributes over concatenation: each character is kept or dropped on its own. */
  lemma {:induction false} SanitizedAppend(a: string, b: string)
    ensures Sanitized(a + b) == Sanitized(a) + Sanitized(b)
    decreases |b|
  {
    if b == [] {
      assert a + b == a;
    } else {
      assert (a + b)[..|a + b| - 1] == a + b[..|b| - 1];
      SanitizedAppend(a, b[..|b| - 1]);
    }
  }

  /** SanitizeString walks the string and copies every printable character. */
  method SanitizeString(s: string) returns (r: string)
    ensures r == Sanitized(s)
  {
    r := "";
    var i := 0;
    while i < |s|
      invariant 0 <= i <= |s|
      invariant r == Sanitized(s[..i])
    {
      assert s[..i + 1][..i] == s[..i];
      if Printable(s[i]) {
        r := r + [s[i]];
      }
      i := i + 1;
    }
    assert s[..|s|] == s;
  }

  /** A string without control characters is left as it is. */
  lemma {:induction false} SanitizedKeepsPrintable(s: string)
    requires forall i :: 0 <= i < |s| ==> Printable(s[i])
    ensures Sanitized(s) == s
  {
    if s != [] {
      SanitizedKeepsPrintable(s[..|s| - 1]);
      assert s[..|s| - 1] + [s[|s| - 1]] == s;
    }
  }

  /** Sanitizing is idempotent. */
  lemma SanitizedIdempotent(s: string)
    ensures Sanitized(Sanitized(s)) == Sanitized(s)
  {
    SanitizedKeepsPrintable(Sanitized(s));
  }

  /** Nothing printable is lost: every printable character of the input is
      in the output. */
  lemma {:induction false} SanitizedKeepsAllPrintable(s: string, c: char)
    requires c in s && Printable(c)
    ensures c in Sanitized(s)
  {
    var last := s[|s| - 1];
    if last != c {
      assert c in s[..|s| - 1] by {
        var k :| 0 <= k < |s| && s[k] == c;
        assert k < |s| - 1;
        assert s[..|s| - 1][k] == c;
      }
      SanitizedKeepsAllPrintable(s[..|s| - 1], c);
    }
  }

  // ---------------------------------------------------------------------
  // IsValidTopic

  /** The characters a topic name may not contain. */
  predicate IsBlank(c: char) { c == ' ' || c == '\t' || c == '\n' || c == '\r' }

  /** A valid topic is non-empty and has no space, tab, newline or carriage
      return. */
  predicate ValidTopic(topic: string)
  {
    topic != [] && forall i :: 0 <= i < |topic| ==> !IsBlank(topic[i])
  }

  /** The same condition as strings.Contains would test it: the topic is
      non-empty and none of the four blank characters occurs in it. */
  lemma ValidTopicByMembership(topic: string)
    ensures ValidTopic(topic) <==> topic != "" && ' ' !in topic && '\t' !in topic && '\n' !in topic && '\r' !in topic
  {
  }

  /** IsValidTopic scans for the first blank character. */
  method IsValidTopic(topic: string) returns (valid: bool)
    ensures valid <==> ValidTopic(topic)
  {
    if topic == "" {
      return false;
    }
    var i := 0;
    while i < |topic|
      invariant 0 <= i <= |topic|
      invariant forall k :: 0 <= k < i ==> !IsBlank(topic[k])
    {
      if IsBlank(topic[i]) {
        return false;
      }
      i := i + 1;
    }
    return true;
  }

  /** Tabs, newlines and carriage returns are control characters, so after
      sanitizing only a space or an empty result can make a topic invalid. */
  lemma {:induction false} SanitizedTopic(s: string)
    requires Sanitized(s) != [] && ' ' !in Sanitized(s)
    ensures ValidTopic(Sanitized(s))
  {
    var r := Sanitized(s);
    forall i | 0 <= i < |r| ensures !IsBlank(r[i]) {
      assert Printable(r[i]);
      assert r[i] != ' ';
    }
  }

  // ---------------------------------------------------------------------
  // ParseConnectionString

  /** ParseConnectionString: exactly one ':' separates the host (trimmed,
      non-empty) from a port that Sscanf reads as an integer in 1..65535. */
  function ParseConnectionString(connStr: string): (r: Result<(string, int), Error>)
    ensures r.Ok? ==> var (host, port) := r.value;
                      host != [] && ':' !in host && TrimSpace(host) == host && 1 <= port <= 65535
    ensures CountChar(connStr, ':') != 1 ==> r == Err(Foreign("invalid connection string format"))
  {
    var parts := Split(connStr, ':');
    if |parts| != 2 then Err(Foreign("invalid connection string format"))
    else
      var host := TrimSpace(parts[0]);
      if host == "" then Err(Foreign("host cannot be empty"))
      else
        match ScanInt(parts[1])
        case None => Err(Foreign("invalid port number: " + parts[1]))
        case Some(port) =>
          if port <= 0 || port > 65535 then Err(Foreign("port number out of range: " + DecimalString(port)))
          else
            TrimSpaceIdempotent(parts[0]);
            TrimSpaceSub(parts[0], ':');
            Ok((host, port))
  }

  lemma TrimSpaceIdempotent(s: string)
    ensures TrimSpace(TrimSpace(s)) == TrimSpace(s)
  {
    var t := TrimSpace(s);
    if t != [] {
      assert TrimLeft(t) == t;
      assert TrimRight(t) == t;
    }
  }

  lemma TrimSpaceSub(s: string, c: char)
    requires c !in s
    ensures c !in TrimSpace(s)
  {
    var l := TrimLeft(s);
    assert l == s[|s| - |l|..];
    assert c !in l;
    var t := TrimRight(l);
    assert t == l[..|t|];
  }

  /** Printing a host and a port and parsing the result gives them back. */
  lemma ParseConnectionStringRoundTrip(host: string, port: int)
    requires host != [] && ':' !in host && TrimSpace(host) == host
    requires 1 <= port <= 65535
    ensures ParseConnectionString(host + ":" + DecimalString(port)) == Ok((host, port))
  {
    var p := DecimalString(port);
    assert ':' !in p by {
      assert p == Digits(port);
    }
    var s := host + ":" + p;
    assert s == host + [':'] + p;
    SplitOnce(host, p, ':');
    var parts := Split(s, ':');
    assert parts == [host, p];
    ScanIntDecimalString(port);
    assert ScanInt(parts[1]) == Some(port);
    assert TrimSpace(parts[0]) == host;
  }

  // ---------------------------------------------------------------------
  // MaskPassword

  function Stars(n: nat): (r: string)
    ensures |r| == n && forall i :: 0 <= i < n ==> r[i] == '*'
  {
    if n == 0 then "" else Stars(n - 1) + "*"
  }

  /** MaskPassword keeps the length and hides every character except, for
      passwords longer than two characters, the first and the last. */
  function MaskPassword(password: string): (r: string)
    ensures |r| == |password|
    ensures |password| <= 2 ==> forall i :: 0 <= i < |r| ==> r[i] == '*'
    ensures |password| > 2 ==> r[0] == password[0] && r[|r| - 1] == password[|password| - 1]
                               && forall i :: 0 < i < |r| - 1 ==> r[i] == '*'
  {
    if password == "" then ""
    else if |password| <= 2 then Stars(|password|)
    else password[..1] + Stars(|password| - 2) + password[|password| - 1..]
  }

  /** Masking a masked password changes nothing. */
  lemma MaskIdempotent(password: string)
    ensures MaskPassword(MaskPassword(password)) == MaskPassword(password)
  {
    var m := MaskPassword(password);
    assert MaskPassword(m) == m by {
      var mm := MaskPassword(m);
      assert forall i :: 0 <= i < |m| ==> mm[i] == m[i];
    }
  }

  // ---------------------------------------------------------------------
  // Contains, Remove, Unique

  /** Contains: a linear search for `item`. */
  method Contains<T(==)>(slice: seq<T>, item: T) returns (found: bool)
    ensures found <==> item in slice
  {
    for i := 0 to |slice|
      invariant item !in slice[..i]
    {
      if slice[i] == item {
        return true;
      }
    }
    assert slice[..|slice|] == slice;
    return false;
  }

  /** The elements of `s` other than `x`, in order. */
  function Removed<T(==)>(s: seq<T>, x: T): (r: seq<T>)
    ensures x !in r
    ensures forall i :: 0 <= i < |r| ==> r[i] in s
  {
    if s == [] then []
    else if s[|s| - 1] == x then Removed(s[..|s| - 1], x)
    else Removed(s[..|s| - 1], x) + [s[|s| - 1]]
  }

  /** Remove copies every element that differs from `item`. */
  method Remove<T(==)>(slice: seq<T>, item: T) returns (result: seq<T>)
    ensures result == Removed(slice, item)
  {
    result := [];
    for i := 0 to |slice|
      invariant result == Removed(slice[..i], item)
    {
      assert slice[..i + 1][..i] == slice[..i];
      if slice[i] != item {
        result := result + [slice[i]];
      }
    }
    assert slice[..|slice|] == slice;
  }

  /** Remove takes away every copy of `item` and leaves the count of every
      other element as it was. */
  lemma {:induction false} RemovedCounts<T>(s: seq<T>, x: T, y: T)
    ensures multiset(Removed(s, x))[y] == if y == x then 0 else multiset(s)[y]
  {
    if s != [] {
      RemovedCounts(s[..|s| - 1], x, y);
      assert s == s[..|s| - 1] + [s[|s| - 1]];
    }
  }

  /** Removing distributes over concatenation. */
  lemma {:induction false} RemovedAppend<T>(a: seq<T>, b: seq<T>, x: T)
    ensures Removed(a + b, x) == Removed(a, x) + Removed(b, x)
    decreases |b|
  {
    if b == [] {
      assert a + b == a;
    } else {
      assert (a + b)[..|a + b| - 1] == a + b[..|b| - 1];
      RemovedAppend(a, b[..|b| - 1], x);
    }
  }

  /** The first occurrence of each element, in order of first appearance. */
  function UniqueOf<T(==)>(s: seq<T>): (r: seq<T>)
    ensures forall i :: 0 <= i < |r| ==> r[i] in s
    ensures forall i :: 0 <= i < |s| ==> s[i] in r
  {
    if s == [] then []
    else
      var u := UniqueOf(s[..|s| - 1]);
      if s[|s| - 1] in u then u else u + [s[|s| - 1]]
  }

  predicate NoDuplicates<T(==)>(s: seq<T>)
  {
    forall i, j :: 0 <= i < j < |s| ==> s[i] != s[j]
  }

  /** Unique keeps a set of the elements seen so far and copies an element
      the first time it is met. */
  method Unique<T(==)>(slice: seq<T>) returns (result: seq<T>)
    ensures result == UniqueOf(slice)
  {
    var keys: set<T> := {};
    result := [];
    for i := 0 to |slice|
      invariant result == UniqueOf(slice[..i])
      invariant forall x :: x in keys <==> x in slice[..i]
    {
      assert slice[..i + 1][..i] == slice[..i];
      assert slice[..i + 1] == slice[..i] + [slice[i]];
      assert slice[i] in keys <==> slice[i] in result;
      if slice[i] !in keys {
        keys := keys + {slice[i]};
        result := result + [slice[i]];
      }
    }
    assert slice[..|slice|] == slice;
  }

  /** Unique's output holds no element twice. */
  lemma {:induction false} UniqueNoDuplicates<T>(s: seq<T>)
    ensures NoDuplicates(UniqueOf(s))
  {
    if s != [] {
      UniqueNoDuplicates(s[..|s| - 1]);
    }
  }

  /** A slice without duplicates comes out of Unique unchanged; in
      particular Unique is idempotent. */
  lemma {:induction false} UniqueOfDistinct<T>(s: seq<T>)
    requires NoDuplicates(s)
    ensures UniqueOf(s) == s
  {
    if s != [] {
      var init := s[..|s| - 1];
      assert NoDuplicates(init) by {
        forall i, j | 0 <= i < j < |init| ensures init[i] != init[j] {
          assert init[i] == s[i] && init[j] == s[j];
        }
      }
      UniqueOfDistinct(init);
      assert s[|s| - 1] !in init by {
        forall k | 0 <= k < |init| ensures init[k] != s[|s| - 1] {
          assert init[k] == s[k];
        }
      }
      assert init + [s[|s| - 1]] == s;
    }
  }

  /** The position of the first occurrence of `x` in `s`. */
  function FirstIndex<T(==)>(s: seq<T>, x: T): (k: nat)
    requires x in s
    ensures k < |s| && s[k] == x && x !in s[..k]
  {
    if s[0] == x then 0
    else
      assert x in s[1..] by {
        var m :| 0 <= m < |s| && s[m] == x;
        assert s[1..][m - 1] == x;
      }
      var k := FirstIndex(s[1..], x);
      assert s[..k + 1] == [s[0]] + s[1..][..k];
      k + 1
  }

  /** A position holding `x` with no earlier `x` is the first index. */
  lemma FirstIndexAt<T>(s: seq<T>, x: T, k: nat)
    requires k < |s| && s[k] == x && x !in s[..k]
    ensures FirstIndex(s, x) == k
  {
  }

  /** Unique keeps the order of first appearance: an element listed ahead
      of another first occurs ahead of it in the input. */
  lemma {:induction false} UniqueKeepsFirstOrder<T>(s: seq<T>, i: nat, j: nat)
    requires i < j < |UniqueOf(s)|
    ensures FirstIndex(s, UniqueOf(s)[i]) < FirstIndex(s, UniqueOf(s)[j])
  {
    var init, last := s[..|s| - 1], s[|s| - 1];
    var u, v := UniqueOf(s), UniqueOf(init);
    assert s == init + [last];
    assert FirstIndex(s, u[i]) == FirstIndex(init, u[i]) by {
      InitFirstIndex(init, last, u[i]);
    }
    if j < |v| {
      InitFirstIndex(init, last, u[j]);
      UniqueKeepsFirstOrder(init, i, j);
    } else {
      assert last !in init;
      FirstIndexAt(s, last, |s| - 1);
    }
  }

  /** Appending an element does not move any first occurrence. */
  lemma InitFirstIndex<T>(init: seq<T>, last: T, x: T)
    requires x in init
    ensures FirstIndex(init + [last], x) == FirstIndex(init, x)
  {
    var k := FirstIndex(init, x);
    assert (init + [last])[..k] == init[..k];
    FirstIndexAt(init + [last], x, k);
  }

  lemma UniqueIdempotent<T>(s: seq<T>)
    ensures UniqueOf(UniqueOf(s)) == UniqueOf(s)
  {
    UniqueNoDuplicates(s);
    UniqueOfDistinct(UniqueOf(s));
  }

  // ---------------------------------------------------------------------
  // MaxInt, MinInt

  function MaxInt(a: int, b: int): (r: int)
    ensures r >= a && r >= b && (r == a || r == b)
  {
    if a > b then a else b
  }

  function MinInt(a: int, b: int): (r: int)
    ensures r <= a && r <= b && (r == a || r == b)
  {
    if a < b then a else b
  }
}
