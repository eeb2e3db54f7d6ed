/**
 * Shared vocabulary of the model: optional values and results, the JSON values that the
 * backend passes around as Python dicts, Python truthiness and `or`, and the handful of
 * string operations the backend uses (`upper`, `lower`, `strip`, `str(int)`, `int(str)`,
 * `sep.join`, substring search).
 */
module Base {

  datatype Option<T> = None | Some(value: T)

  /** An operation that either returns a value or raises with a message. */
  datatype Result<T> = Ok(value: T) | Err(error: string)

  /**
   * A JSON document as produced by `json.loads` or a Python dict literal. Objects are
   * association lists in insertion order, as Python dicts are; keys are expected to be
   * unique and lookups return the first binding.
   */
  datatype Json =
    | JNull
    | JBool(b: bool)
    | JNum(n: real)
    | JStr(s: string)
    | JArr(items: seq<Json>)
    | JObj(fields: seq<(string, Json)>)

  /** Python's truth value of a JSON value. */
  predicate Truthy(j: Json) {
    match j
    case JNull => false
    case JBool(b) => b
    case JNum(n) => n != 0.0
    case JStr(s) => s != ""
    case JArr(items) => items != []
    case JObj(fields) => fields != []
  }

  /** Python's `a or b`. */
  function JOr(a: Json, b: Json): (r: Json)
    ensures Truthy(a) ==> r == a
    ensures !Truthy(a) ==> r == b
  {
    if Truthy(a) then a else b
  }

  predicate HasKey(fields: seq<(string, Json)>, k: string) {
    exists i :: 0 <= i < |fields| && fields[i].0 == k
  }

  /** The first binding of `k` in an association list. */
  function Lookup(fields: seq<(string, Json)>, k: string): (r: Option<Json>)
    ensures r.Some? <==> HasKey(fields, k)
    ensures r.Some? ==> (k, r.value) in fields
  {
    if |fields| == 0 then None
    else if fields[0].0 == k then Some(fields[0].1)
    else
      var rest := Lookup(fields[1..], k);
      assert HasKey(fields[1..], k) ==> HasKey(fields, k) by {
        if HasKey(fields[1..], k) {
          var i :| 0 <= i < |fields[1..]| && fields[1..][i].0 == k;
          assert fields[i + 1].0 == k;
        }
      }
      assert HasKey(fields, k) ==> HasKey(fields[1..], k) by {
        if HasKey(fields, k) {
          var i :| 0 <= i < |fields| && fields[i].0 == k;
          assert i != 0;
          assert fields[1..][i - 1].0 == k;
        }
      }
      rest
  }

  /** The binding found is the first one for the key. */
  lemma {:induction false} LookupFirst(fields: seq<(string, Json)>, k: string, i: nat)
    requires i < |fields| && fields[i].0 == k
    requires forall j :: 0 <= j < i ==> fields[j].0 != k
    ensures Lookup(fields, k) == Some(fields[i].1)
  {
    if i > 0 {
      LookupFirst(fields[1..], k, i - 1);
    }
  }

  predicate UniqueKeys(fields: seq<(string, Json)>) {
    forall a, b :: 0 <= a < b < |fields| ==> fields[a].0 != fields[b].0
  }

  /** In an object without repeated keys, each key reads back its own value. */
  lemma GetUnique(fields: seq<(string, Json)>, i: nat)
    requires i < |fields| && UniqueKeys(fields)
    ensures Get(JObj(fields), fields[i].0) == fields[i].1
  {
    LookupFirst(fields, fields[i].0, i);
  }

  /** `k in d` for a JSON value `d` (false when `d` is not an object). */
  predicate Has(d: Json, k: string) {
    d.JObj? && HasKey(d.fields, k)
  }

  /**
   * `d.get(k, default)`. A value that is not an object is read as an object without
   * fields (the source would raise AttributeError there).
   */
  function GetOr(d: Json, k: string, default: Json): (r: Json)
    ensures !Has(d, k) ==> r == default
    ensures Has(d, k) ==> (k, r) in d.fields
  {
    if d.JObj? then
      match Lookup(d.fields, k)
      case Some(v) => v
      case None => default
    else default
  }

  /** `d.get(k)`: `None` when the key is absent. */
  function Get(d: Json, k: string): Json {
    GetOr(d, k, JNull)
  }

  /** `d[k] = v` on an association list: the first binding is replaced, or one is appended. */
  function SetField(fields: seq<(string, Json)>, k: string, v: Json): (r: seq<(string, Json)>)
    ensures Lookup(r, k) == Some(v)
    ensures forall k2 :: k2 != k ==> Lookup(r, k2) == Lookup(fields, k2)
  {
    if fields == [] then [(k, v)]
    else if fields[0].0 == k then [(k, v)] + fields[1..]
    else
      var r := [fields[0]] + SetField(fields[1..], k, v);
      assert r[1..] == SetField(fields[1..], k, v);
      r
  }

  /** `d[k] = v` for a dict `d` (a value that is not an object is read as `{}`). */
  function Put(d: Json, k: string, v: Json): (r: Json)
    ensures r.JObj? && Get(r, k) == v
    ensures forall k2 :: k2 != k ==> Get(r, k2) == Get(d, k2)
  {
    JObj(SetField(if d.JObj? then d.fields else [], k, v))
  }

  /**
   * `None if value in (None, "") else float(value)`, with TypeError and ValueError read
   * as `None`. `parseFloat` stands for `float()` on a string.
   */
  function FloatOf(value: Json, parseFloat: string -> Option<real>): (r: Option<real>)
    ensures value == JNull || value == JStr("") || value.JArr? || value.JObj? ==> r == None
    ensures value.JNum? ==> r == Some(value.n)
    ensures value.JBool? ==> r == Some(if value.b then 1.0 else 0.0)
    ensures value.JStr? && value.s != "" ==> r == parseFloat(value.s)
  {
    match value
    case JNull => None
    case JBool(b) => Some(if b then 1.0 else 0.0)
    case JNum(n) => Some(n)
    case JStr(s) => if s == "" then None else parseFloat(s)
    case JArr(_) => None
    case JObj(_) => None
  }

  /** A normalised value as stored: the number, or `None` (JSON null). */
  function ValueJson(v: Option<real>): Json {
    match v
    case Some(x) => JNum(x)
    case None => JNull
  }

  /** Python truthiness of an optional string: present and non-empty. */
  predicate Present(o: Option<string>) {
    o.Some? && o.value != ""
  }

  /** Python's `o or default` for an optional string. */
  function Or(o: Option<string>, default: string): (r: string)
    ensures Present(o) ==> r == o.value
    ensures !Present(o) ==> r == default
  {
    if Present(o) then o.value else default
  }

  /** Python's `a or b` for two optional strings. */
  function OrOpt(a: Option<string>, b: Option<string>): (r: Option<string>)
    ensures Present(a) ==> r == a
    ensures !Present(a) ==> r == b
  {
    if Present(a) then a else b
  }

  // ---------------------------------------------------------------------------------
  // ASCII case mapping (non-ASCII characters are left unchanged)

  function UpperChar(c: char): char {
    if 'a' <= c <= 'z' then (c as int - 32) as char else c
  }

  function LowerChar(c: char): char {
    if 'A' <= c <= 'Z' then (c as int + 32) as char else c
  }

  predicate IsLetter(c: char) {
    'a' <= c <= 'z' || 'A' <= c <= 'Z'
  }

  /** `s.upper()` */
  function Upper(s: string): (r: string)
    ensures |r| == |s|
    ensures forall i :: 0 <= i < |s| ==> r[i] == UpperChar(s[i])
  {
    seq(|s|, i requires 0 <= i < |s| => UpperChar(s[i]))
  }

  /** `s.lower()` */
  function Lower(s: string): (r: string)
    ensures |r| == |s|
    ensures forall i :: 0 <= i < |s| ==> r[i] == LowerChar(s[i])
  {
    seq(|s|, i requires 0 <= i < |s| => LowerChar(s[i]))
  }

  /** Upper-casing twice is upper-casing once, so repeated normalisation is harmless. */
  lemma UpperIdempotent(s: string)
    ensures Upper(Upper(s)) == Upper(s)
  {
    assert forall i :: 0 <= i < |s| ==> UpperChar(UpperChar(s[i])) == UpperChar(s[i]);
  }

  /** Case-insensitive equality as `LOWER(a) = LOWER(b)` decides it. */
  predicate EqualIgnoringCase(a: string, b: string) {
    Lower(a) == Lower(b)
  }

  // ---------------------------------------------------------------------------------
  // strip()

  /**
   * What `str.isspace` accepts: tab to carriage return, the four separators 0x1C to 0x1F,
   * space, next line, no-break space and the Unicode space and separator characters.
   */
  predicate IsSpace(c: char) {
    ('\t' <= c <= '\r') || ('\U{001C}' <= c <= ' ') || c == '\U{0085}' || c == '\U{00A0}'
    || c == '\U{1680}' || ('\U{2000}' <= c <= '\U{200A}') || c == '\U{2028}' || c == '\U{2029}'
    || c == '\U{202F}' || c == '\U{205F}' || c == '\U{3000}'
  }

  predicate AllSpace(s: string) {
    forall i :: 0 <= i < |s| ==> IsSpace(s[i])
  }

  /** The number of leading whitespace characters. */
  function LeadingSpaces(s: string): (k: nat)
    ensures k <= |s| && AllSpace(s[..k])
    ensures k < |s| ==> !IsSpace(s[k])
  {
    if s == [] || !IsSpace(s[0]) then 0
    else
      var k := LeadingSpaces(s[1..]);
      var head := s[..k + 1];
      forall i | 0 <= i < k + 1 ensures IsSpace(head[i]) {
        if i > 0 { assert head[i] == s[1..][..k][i - 1]; }
      }
      k + 1
  }

  /** The index just after the last non-whitespace character. */
  function TrailingStart(s: string): (k: nat)
    ensures k <= |s| && AllSpace(s[k..])
    ensures k > 0 ==> !IsSpace(s[k - 1])
  {
    if s == [] || !IsSpace(s[|s| - 1]) then |s|
    else
      var k := TrailingStart(s[..|s| - 1]);
      forall i | 0 <= i < |s| - k ensures IsSpace(s[k..][i]) {
        if i < |s| - 1 - k { assert s[k..][i] == s[..|s| - 1][k..][i]; }
      }
      k
  }

  /** `s.strip()`: cuts the `IsSpace` characters from both ends. */
  function Strip(s: string): (r: string)
    ensures exists i, j :: 0 <= i <= j <= |s| && r == s[i..j] && AllSpace(s[..i]) && AllSpace(s[j..])
    ensures r != [] ==> !IsSpace(r[0]) && !IsSpace(r[|r| - 1])
  {
    var i := LeadingSpaces(s);
    var t := s[i..];
    var j := TrailingStart(t);
    assert t[..j] == s[i..i + j];
    assert t[j..] == s[i + j..];
    t[..j]
  }

  /** A string without surrounding whitespace is its own strip. */
  lemma StripNone(s: string)
    requires s != [] ==> !IsSpace(s[0]) && !IsSpace(s[|s| - 1])
    ensures Strip(s) == s
  {
    assert LeadingSpaces(s) == 0;
    assert s[0..] == s;
    assert TrailingStart(s) == |s|;
  }

  /** `s.strip()` is non-empty exactly when `s` has a non-whitespace character. */
  lemma StripNonEmpty(s: string)
    ensures Strip(s) != "" <==> !AllSpace(s)
  {
    var r := Strip(s);
    var i, j :| 0 <= i <= j <= |s| && r == s[i..j] && AllSpace(s[..i]) && AllSpace(s[j..]);
    if r == "" {
      assert i == j;
      forall n | 0 <= n < |s| ensures IsSpace(s[n]) {
        if n < i { assert s[..i][n] == s[n]; } else { assert s[j..][n - j] == s[n]; }
      }
    } else {
      assert s[i] == r[0];
    }
  }

  // ---------------------------------------------------------------------------------
  // Decimal numerals: str(n) and int(s)

  predicate IsDigit(c: char) {
    '0' <= c <= '9'
  }

  function DigitChar(d: nat): (c: char)
    requires d < 10
    ensures IsDigit(c) && c as int - '0' as int == d
  {
    ('0' as int + d) as char
  }

  /** `str(n)` for a non-negative integer. */
  function NatToString(n: nat): (r: string)
    ensures |r| >= 1
    ensures |r| == 1 <==> n < 10
    ensures forall i :: 0 <= i < |r| ==> IsDigit(r[i])
  {
    if n < 10 then [DigitChar(n)] else NatToString(n / 10) + [DigitChar(n % 10)]
  }

  /** Distinct numbers print differently, so `str(i)` can key a dictionary. */
  lemma {:induction false} NatToStringInjective(a: nat, b: nat)
    ensures NatToString(a) == NatToString(b) ==> a == b
  {
    if NatToString(a) == NatToString(b) {
      var s := NatToString(a);
      if a < 10 || b < 10 {
        assert a < 10 && b < 10;
        assert s[0] == DigitChar(a) && s[0] == DigitChar(b);
      } else {
        assert s[|s| - 1] == DigitChar(a % 10) && s[|s| - 1] == DigitChar(b % 10);
        assert NatToString(a / 10) == s[..|s| - 1] == NatToString(b / 10);
        NatToStringInjective(a / 10, b / 10);
      }
    }
  }

  /** The value of a non-empty run of decimal digits. */
  function DigitsValue(s: string): nat
    requires forall i :: 0 <= i < |s| ==> IsDigit(s[i])
  {
    if s == [] then 0
    else
      assert IsDigit(s[|s| - 1]);
      10 * DigitsValue(s[..|s| - 1]) + (s[|s| - 1] as int - '0' as int)
  }

  /**
   * `int(s)` for an optionally signed run of ASCII digits; `None` where Python raises
   * ValueError.
   */
  function ParseInt(s: string): (r: Option<int>)
    ensures r.Some? && s != [] && IsDigit(s[0]) ==> r.value >= 0
  {
    var body := if s != [] && (s[0] == '-' || s[0] == '+') then s[1..] else s;
    if body == [] || !(forall i :: 0 <= i < |body| ==> IsDigit(body[i])) then None
    else if s[0] == '-' then Some(0 - DigitsValue(body) as int)
    else Some(DigitsValue(body))
  }

  /** `int(str(n)) == n`: printing then parsing a count gives it back. */
  lemma {:induction false} ParsePrinted(n: nat)
    ensures ParseInt(NatToString(n)) == Some(n)
  {
    DigitsOfPrinted(n);
  }

  lemma {:induction false} DigitsOfPrinted(n: nat)
    ensures DigitsValue(NatToString(n)) == n
  {
    var s := NatToString(n);
    if n >= 10 {
      assert s[..|s| - 1] == NatToString(n / 10);
      DigitsOfPrinted(n / 10);
    } else {
      assert s[..|s| - 1] == [];
    }
  }

  // ---------------------------------------------------------------------------------
  // Sequences of strings

  /** `sep.join(parts)` */
  function Join(sep: string, parts: seq<string>): string {
    if parts == [] then ""
    else if |parts| == 1 then parts[0]
    else Join(sep, parts[..|parts| - 1]) + sep + parts[|parts| - 1]
  }

  /** The position of the last `c` in `s`, or -1. */
  function LastIndexOf(s: string, c: char): (i: int)
    ensures -1 <= i < |s|
    ensures i >= 0 ==> s[i] == c
    ensures forall j :: i < j < |s| ==> s[j] != c
  {
    if s == [] then -1
    else if s[|s| - 1] == c then |s| - 1
    else LastIndexOf(s[..|s| - 1], c)
  }

  /** `s.split(c)` for a one-character separator. */
  function Split(s: string, c: char): (r: seq<string>)
    ensures |r| >= 1
    decreases |s|
  {
    var i := LastIndexOf(s, c);
    if i < 0 then [s] else Split(s[..i], c) + [s[i + 1..]]
  }

  /** Joining the pieces of a split with the separator gives the string back. */
  lemma {:induction false} JoinSplit(s: string, c: char)
    ensures Join([c], Split(s, c)) == s
    decreases |s|
  {
    var i := LastIndexOf(s, c);
    if i >= 0 {
      var parts := Split(s, c);
      JoinSplit(s[..i], c);
      assert parts[..|parts| - 1] == Split(s[..i], c);
      assert s == s[..i] + [c] + s[i + 1..];
    }
  }

  lemma LastIndexAt(s: string, c: char, i: nat)
    requires i < |s| && s[i] == c
    requires forall j :: i < j < |s| ==> s[j] != c
    ensures LastIndexOf(s, c) == i
  {
  }

  lemma LastIndexNone(s: string, c: char)
    requires c !in s
    ensures LastIndexOf(s, c) == -1
  {
  }

  /** Splitting a join of separator-free pieces gives the pieces back. */
  lemma {:induction false} SplitJoin(parts: seq<string>, c: char)
    requires |parts| >= 1
    requires forall k :: 0 <= k < |parts| ==> c !in parts[k]
    ensures Split(Join([c], parts), c) == parts
  {
    var last := parts[|parts| - 1];
    assert c !in last;
    if |parts| == 1 {
      LastIndexNone(last, c);
    } else {
      var init := parts[..|parts| - 1];
      var head := Join([c], init);
      var s := head + [c] + last;
      assert Join([c], parts) == s;
      forall j | |head| < j < |s| ensures s[j] != c {
        assert s[j] == last[j - |head| - 1];
      }
      LastIndexAt(s, c, |head|);
      assert s[..|head|] == head;
      assert s[|head| + 1..] == last;
      SplitJoin(init, c);
      assert parts == init + [last];
    }
  }

  /** The members of a JSON object, in order (none for any other value). */
  function Fields(j: Json): seq<(string, Json)> {
    if j.JObj? then j.fields else []
  }

  /** The elements of a JSON array (none for any other value). */
  function Items(j: Json): seq<Json> {
    if j.JArr? then j.items else []
  }

  /** Keep the elements satisfying `p`, in order. */
  function Filter<T(!new)>(s: seq<T>, p: T -> bool): (r: seq<T>)
    ensures |r| <= |s|
    ensures forall x :: x in r <==> x in s && p(x)
  {
    if s == [] then []
    else
      var init := s[..|s| - 1];
      assert s == init + [s[|s| - 1]];
      Filter(init, p) + (if p(s[|s| - 1]) then [s[|s| - 1]] else [])
  }

  lemma FilterSnoc<T(!new)>(s: seq<T>, x: T, p: T -> bool)
    ensures Filter(s + [x], p) == Filter(s, p) + (if p(x) then [x] else [])
  {
    assert (s + [x])[..|s|] == s;
  }

  /** `r` is `s` read at the strictly increasing positions `idx`. */
  ghost predicate ReadAtIncreasing<T>(r: seq<T>, s: seq<T>, idx: seq<nat>) {
    |idx| == |r|
    && (forall k :: 0 <= k < |idx| ==> idx[k] < |s| && r[k] == s[idx[k]])
    && (forall a, b :: 0 <= a < b < |idx| ==> idx[a] < idx[b])
  }

  /**
   * Where the kept elements came from: `Filter` keeps order and multiplicity, so its result
   * is `s` read at strictly increasing positions, which are exactly those where `p` holds.
   */
  function FilterPositions<T(!new)>(s: seq<T>, p: T -> bool): (idx: seq<nat>)
    ensures ReadAtIncreasing(Filter(s, p), s, idx)
    ensures forall j :: 0 <= j < |s| ==> (j in idx <==> p(s[j]))
  {
    if s == [] then []
    else
      var init := s[..|s| - 1];
      var prev := FilterPositions(init, p);
      var x := s[|s| - 1];
      assert s == init + [x];
      FilterSnoc(init, x, p);
      SnocReadAt(Filter(init, p), init, prev, x, p(x));
      PositionsSnoc(init, x, prev, p);
      prev + (if p(x) then [|init|] else [])
  }

  /** Appending an element: the read positions gain the new last position when it is kept. */
  lemma SnocReadAt<T>(f: seq<T>, s: seq<T>, prev: seq<nat>, x: T, keep: bool)
    requires ReadAtIncreasing(f, s, prev)
    ensures ReadAtIncreasing(f + (if keep then [x] else []), s + [x], prev + (if keep then [|s|] else []))
  {
    var idx := prev + (if keep then [|s|] else []);
    var g := f + (if keep then [x] else []);
    var t := s + [x];
    forall k | 0 <= k < |idx| ensures idx[k] < |t| && g[k] == t[idx[k]] {
      if k < |prev| {
        assert idx[k] == prev[k] && g[k] == f[k] && t[prev[k]] == s[prev[k]];
      }
    }
  }

  /** Appending an element: the positions where `p` holds gain the new last one when `p` holds there. */
  lemma PositionsSnoc<T>(s: seq<T>, x: T, prev: seq<nat>, p: T -> bool)
    requires forall k :: 0 <= k < |prev| ==> prev[k] < |s|
    requires forall j :: 0 <= j < |s| ==> (j in prev <==> p(s[j]))
    ensures forall j :: 0 <= j < |s| + 1 ==> (j in prev + (if p(x) then [|s|] else []) <==> p((s + [x])[j]))
  {
    assert |s| !in prev;
    forall j | 0 <= j < |s| + 1 ensures (j in prev + (if p(x) then [|s|] else []) <==> p((s + [x])[j])) {
      if j < |s| {
        assert (s + [x])[j] == s[j];
      }
    }
  }

  /** `[f(x) for x in xs]` where `f` may raise: the first failure, or every result in order. */
  function MapResult<T, R>(xs: seq<T>, f: T -> Result<R>): (r: Result<seq<R>>)
    ensures r.Ok? <==> forall i :: 0 <= i < |xs| ==> f(xs[i]).Ok?
    ensures r.Ok? ==> |r.value| == |xs| && forall i :: 0 <= i < |xs| ==> r.value[i] == f(xs[i]).value
  {
    if xs == [] then Ok([])
    else
      match f(xs[0])
      case Err(e) => Err(e)
      case Ok(y) =>
        match MapResult(xs[1..], f)
        case Err(e) => Err(e)
        case Ok(ys) =>
          assert forall i :: 1 <= i < |xs| ==> xs[1..][i - 1] == xs[i];
          Ok([y] + ys)
  }

  /** The elements in reverse order (`reversed`, `list.reverse`). */
  function Reverse<T>(s: seq<T>): (r: seq<T>)
    ensures |r| == |s|
  {
    if s == [] then [] else [s[|s| - 1]] + Reverse(s[..|s| - 1])
  }

  lemma {:induction false} ReverseAt<T>(s: seq<T>, i: nat)
    requires i < |s|
    ensures Reverse(s)[i] == s[|s| - 1 - i]
  {
    if i > 0 {
      var init := s[..|s| - 1];
      ReverseAt(init, i - 1);
      assert Reverse(s)[i] == Reverse(init)[i - 1];
    }
  }

  /** `LIMIT n`: the first `n` elements, or all of them. */
  function Take<T>(s: seq<T>, n: nat): (r: seq<T>)
    ensures |r| == if |s| <= n then |s| else n
    ensures |s| <= n ==> r == s
    ensures r == s[..|r|]
  {
    if |s| <= n then s else s[..n]
  }

  /** The position of the first element satisfying `p`, or `|s|` when there is none. */
  function FirstIndex<T>(s: seq<T>, p: T -> bool): (i: nat)
    ensures i <= |s|
    ensures i < |s| ==> p(s[i])
    ensures forall j :: 0 <= j < i ==> !p(s[j])
  {
    if s == [] then 0
    else if p(s[0]) then 0
    else
      var k := FirstIndex(s[1..], p);
      assert forall j :: 1 <= j < k + 1 ==> s[j] == s[1..][j - 1];
      k + 1
  }

  /** Two sequences whose elements satisfy the two predicates at the same places share the first index. */
  lemma {:induction false} FirstIndexAgree<T, U>(s: seq<T>, p: T -> bool, s': seq<U>, q: U -> bool)
    requires |s| == |s'|
    requires forall j :: 0 <= j < |s| ==> (p(s[j]) <==> q(s'[j]))
    ensures FirstIndex(s, p) == FirstIndex(s', q)
  {
    if s != [] && !p(s[0]) {
      FirstIndexAgree(s[1..], p, s'[1..], q);
    }
  }

  /** The first element satisfying `p` (a `LIMIT 1` scan in table order), if any. */
  function First<T(!new)>(s: seq<T>, p: T -> bool): (r: Option<T>)
    ensures r.Some? ==> r.value in s && p(r.value)
    ensures r.None? <==> forall x :: x in s ==> !p(x)
  {
    var i := FirstIndex(s, p);
    if i < |s| then Some(s[i]) else None
  }

  /** SQL `COALESCE(a, b)`: the first non-NULL argument. */
  function Coalesce<T>(a: Option<T>, b: Option<T>): (r: Option<T>)
    ensures a.Some? ==> r == a
    ensures a.None? ==> r == b
  {
    if a.Some? then a else b
  }
}
