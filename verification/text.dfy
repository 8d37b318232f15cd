/**
 * String handling used by the canvas painter's wire protocol: prefix tests,
 * `std::string::find` of one character, the C-string view taken by `strchr`,
 * the splitting of `<head>:<tail>` bodies and the decimal rendering of
 * counters and versions.
 */
module Text {

  datatype Option<T> = None | Some(value: T)

  /** `s.find(p) == 0`: `s` starts with `p`. */
  predicate StartsWith(s: string, p: string) {
    |p| <= |s| && s[..|p|] == p
  }

  /** `s.find(c)`: position of the first `c` in `s`, or `|s|` in place of `npos`. */
  function IndexOf(s: string, c: char): (r: nat)
    ensures r <= |s|
    ensures c !in s[..r]
    ensures r < |s| ==> s[r] == c
  {
    if |s| == 0 then 0
    else if s[0] == c then 0
    else 1 + IndexOf(s[1..], c)
  }

  /** Position of the first `c` is determined by the two facts that describe it. */
  lemma IndexOfAt(s: string, c: char, k: nat)
    requires k < |s| && s[k] == c && c !in s[..k]
    ensures IndexOf(s, c) == k
  {
  }

  /** `IndexOf` yields `|s|` exactly when `c` does not occur. */
  lemma IndexOfAbsent(s: string, c: char)
    ensures IndexOf(s, c) == |s| <==> c !in s
  {
    var r := IndexOf(s, c);
    if r == |s| {
      assert s[..r] == s;
    } else {
      assert s[r] == c;
    }
  }

  /**
   * The id `FindDrawable` looks up: the text before the first `#`
   * (TCanvasPainter.cxx:640-644).
   */
  function DrawableId(id: string): (r: string)
    ensures '#' !in r
    ensures StartsWith(id, r)
    ensures '#' !in id ==> r == id
    ensures |r| < |id| ==> id[|r|] == '#'
  {
    var p := IndexOf(id, '#');
    IndexOfAbsent(id, '#');
    assert id[..p][..p] == id[..p];
    id[..p]
  }

  /**
   * Split `<head>:<tail>` at the first `:`, refusing a missing separator or an
   * empty head, as `SaveCreatedFile` and the `OBJEXEC:` branch do
   * (TCanvasPainter.cxx:655-662, 518-522).
   */
  function SplitHead(s: string): (r: Option<(string, string)>)
    ensures r.Some? <==> ':' in s && s[0] != ':'
    ensures r.Some? ==> r.value.0 != [] && ':' !in r.value.0 && s == r.value.0 + ":" + r.value.1
  {
    var p := IndexOf(s, ':');
    IndexOfAbsent(s, ':');
    if p == |s| || p == 0 then None
    else
      assert s == s[..p] + ":" + s[p + 1..];
      Some((s[..p], s[p + 1..]))
  }

  /** The split recovers the head and tail it was given: `SplitHead` inverts joining at `:`. */
  lemma {:induction false} SplitHeadJoin(head: string, tail: string)
    requires head != [] && ':' !in head
    ensures SplitHead(head + ":" + tail) == Some((head, tail))
  {
    var s := head + ":" + tail;
    assert s[|head|] == ':';
    assert s[..|head|] == head;
    IndexOfAt(s, ':', |head|);
    assert s[|head| + 1..] == tail;
  }

  /** What `c_str()` shows to C string functions: the text before the first NUL. */
  function CString(s: string): (r: string)
    ensures '\0' !in r
    ensures StartsWith(s, r)
    ensures '\0' !in s ==> r == s
  {
    var p := IndexOf(s, '\0');
    IndexOfAbsent(s, '\0');
    assert s[..p][..p] == s[..p];
    s[..p]
  }

  /**
   * A `REPLY:` body as `strchr` splits it (TCanvasPainter.cxx:497-501, 509):
   * `None` when the C string has no `:` (the id is then empty), otherwise the
   * id before the first `:` (possibly empty) and the C string after it.
   */
  function SplitReply(body: string): (r: Option<(string, string)>)
    ensures r.Some? <==> ':' in CString(body)
    ensures r.Some? ==> ':' !in r.value.0 && CString(body) == r.value.0 + ":" + r.value.1
  {
    var c := CString(body);
    var p := IndexOf(c, ':');
    IndexOfAbsent(c, ':');
    if p == |c| then None
    else
      assert c == c[..p] + ":" + c[p + 1..];
      Some((c[..p], c[p + 1..]))
  }

  /** A reply `<id>:<payload>` whose id has no `:` and whose text has no NUL splits back into its parts. */
  lemma {:induction false} SplitReplyJoin(id: string, payload: string)
    requires ':' !in id && '\0' !in id && '\0' !in payload
    ensures SplitReply(id + ":" + payload) == Some((id, payload))
  {
    var s := id + ":" + payload;
    assert '\0' !in s by {
      forall k | 0 <= k < |s| ensures s[k] != '\0' {
        if k < |id| { assert s[k] == id[k]; }
        else if k > |id| { assert s[k] == payload[k - |id| - 1]; }
      }
    }
    assert CString(s) == s;
    assert s[|id|] == ':';
    assert s[..|id|] == id;
    IndexOfAt(s, ':', |id|);
    assert s[|id| + 1..] == payload;
  }

  predicate IsDigit(ch: char) {
    '0' <= ch <= '9'
  }

  predicate IsDecimal(s: string) {
    forall k :: 0 <= k < |s| ==> IsDigit(s[k])
  }

  function Digit(d: nat): (ch: char)
    requires d < 10
    ensures IsDigit(ch) && (ch as int) - ('0' as int) == d
  {
    (('0' as int) + d) as char
  }

  /** Decimal rendering, as `std::to_string` and `TString::ULLtoa(v, 10)` give it. */
  function NatToString(n: nat): (r: string)
    ensures r != [] && IsDecimal(r)
    decreases n
  {
    if n < 10 then [Digit(n)] else NatToString(n / 10) + [Digit(n % 10)]
  }

  /** The value of a string of decimal digits: the inverse of `NatToString`. */
  function ParseNat(s: string): nat
    requires IsDecimal(s)
    decreases |s|
  {
    if s == [] then 0
    else ParseNat(s[..|s| - 1]) * 10 + ((s[|s| - 1] as int) - ('0' as int))
  }

  lemma {:induction false} ParseNatToString(n: nat)
    ensures ParseNat(NatToString(n)) == n
    decreases n
  {
    var s := NatToString(n);
    if n >= 10 {
      ParseNatToString(n / 10);
      assert s[..|s| - 1] == NatToString(n / 10);
    }
  }

  /** Distinct numbers render to distinct strings, so counter-issued ids never repeat. */
  lemma NatToStringInjective(m: nat, n: nat)
    requires m != n
    ensures NatToString(m) != NatToString(n)
  {
    ParseNatToString(m);
    ParseNatToString(n);
  }
}
