/** The string operations the chat code relies on. */
module Text {

  /** What str.strip removes and str.isspace accepts. */
  predicate IsSpace(c: char) {
    var n := c as int;
    || 9 <= n <= 13 || 28 <= n <= 32 || n == 0x85 || n == 0xA0 || n == 0x1680
    || 0x2000 <= n <= 0x200A || n == 0x2028 || n == 0x2029 || n == 0x202F || n == 0x205F || n == 0x3000
  }

  /** Where str.splitlines breaks. */
  predicate IsLineBreak(c: char) {
    var n := c as int;
    10 <= n <= 13 || 28 <= n <= 30 || n == 0x85 || n == 0x2028 || n == 0x2029
  }

  /** What bytes.strip removes. */
  predicate IsByteSpace(c: char) {
    9 <= c as int <= 13 || c == ' '
  }

  /** The first position from i on that is not to be dropped. */
  function Dropped(drop: char -> bool, s: string, i: nat): (r: nat)
    requires i <= |s|
    ensures i <= r <= |s|
    ensures forall k :: i <= k < r ==> drop(s[k])
    ensures r < |s| ==> !drop(s[r])
    decreases |s| - i
  {
    if i < |s| && drop(s[i]) then Dropped(drop, s, i + 1) else i
  }

  /** One past the last position before n that is not to be dropped. */
  function Kept(drop: char -> bool, s: string, n: nat): (r: nat)
    requires n <= |s|
    ensures r <= n
    ensures forall k :: r <= k < n ==> drop(s[k])
    ensures r > 0 ==> !drop(s[r - 1])
  {
    if n > 0 && drop(s[n - 1]) then Kept(drop, s, n - 1) else n
  }

  function DropLeft(drop: char -> bool, s: string): string {
    s[Dropped(drop, s, 0)..]
  }

  function DropRight(drop: char -> bool, s: string): string {
    s[..Kept(drop, s, |s|)]
  }

  lemma DroppedIs(drop: char -> bool, s: string, k: nat)
    requires k <= |s| && (forall i :: 0 <= i < k ==> drop(s[i])) && (k < |s| ==> !drop(s[k]))
    ensures Dropped(drop, s, 0) == k
  {
  }

  function LStrip(s: string): string {
    DropLeft(IsSpace, s)
  }

  function Strip(s: string): string {
    DropRight(IsSpace, DropLeft(IsSpace, s))
  }

  function StripBytes(s: string): string {
    DropRight(IsByteSpace, DropLeft(IsByteSpace, s))
  }

  /** Stripping takes away exactly the blanks at both ends. */
  lemma StripTrims(s: string) returns (i: nat, j: nat)
    ensures i <= j <= |s| && Strip(s) == s[i..j]
    ensures (forall k :: 0 <= k < i ==> IsSpace(s[k])) && (forall k :: j <= k < |s| ==> IsSpace(s[k]))
    ensures i < j ==> !IsSpace(s[i]) && !IsSpace(s[j - 1])
  {
    i, j := Trimmed(IsSpace, s);
  }

  lemma StripBytesTrims(s: string) returns (i: nat, j: nat)
    ensures i <= j <= |s| && StripBytes(s) == s[i..j]
    ensures (forall k :: 0 <= k < i ==> IsByteSpace(s[k])) && (forall k :: j <= k < |s| ==> IsByteSpace(s[k]))
    ensures i < j ==> !IsByteSpace(s[i]) && !IsByteSpace(s[j - 1])
  {
    i, j := Trimmed(IsByteSpace, s);
  }

  lemma LStripTrims(s: string) returns (i: nat)
    ensures i <= |s| && LStrip(s) == s[i..]
    ensures (forall k :: 0 <= k < i ==> IsSpace(s[k])) && (i < |s| ==> !IsSpace(s[i]))
  {
    i := Dropped(IsSpace, s, 0);
  }

  lemma Trimmed(drop: char -> bool, s: string) returns (i: nat, j: nat)
    ensures i <= j <= |s| && DropRight(drop, DropLeft(drop, s)) == s[i..j]
    ensures (forall k :: 0 <= k < i ==> drop(s[k])) && (forall k :: j <= k < |s| ==> drop(s[k]))
    ensures i < j ==> !drop(s[i]) && !drop(s[j - 1])
  {
    i := Dropped(drop, s, 0);
    var t := s[i..];
    var n := Kept(drop, t, |t|);
    j := i + n;
    assert t[..n] == s[i..j];
    forall k | j <= k < |s|
      ensures drop(s[k])
    {
      assert s[k] == t[k - i];
    }
    if i < j {
      assert t[n - 1] == s[j - 1];
    }
  }

  predicate StartsWith(s: string, prefix: string) {
    prefix <= s
  }

  function Concat(parts: seq<string>): string {
    if parts == [] then "" else Concat(parts[..|parts| - 1]) + parts[|parts| - 1]
  }

  /** The lead-in that names the model that answered. */
  function Label(model: string): string {
    "`[" + model + "]`\n\n"
  }

  lemma ConcatSnoc(parts: seq<string>, last: string)
    ensures Concat(parts + [last]) == Concat(parts) + last
  {
    assert (parts + [last])[..|parts|] == parts;
  }

  lemma Reassociated(a: string, b: string, c: string)
    ensures (a + b) + c == a + (b + c)
  {
  }

  lemma {:induction false} ConcatAppend(a: seq<string>, b: seq<string>)
    ensures Concat(a + b) == Concat(a) + Concat(b)
  {
    if b == [] {
      assert a + b == a;
    } else {
      var n := |b| - 1;
      ConcatAppend(a, b[..n]);
      assert a + b == (a + b[..n]) + [b[n]];
      ConcatSnoc(a + b[..n], b[n]);
      Reassociated(Concat(a), Concat(b[..n]), b[n]);
    }
  }
}
