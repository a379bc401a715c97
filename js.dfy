/** JavaScript runtime values as the client sees them: the results of
    JSON.parse, plain objects built by the client, and instances of the
    DTO classes. A plain object is an ordered list of entries; assignment
    follows JavaScript: writing an existing key keeps its position, writing
    a new key appends it. */
module Js {

  datatype Option<+T> = None | Some(value: T)

  datatype Result<+T> = Ok(value: T) | Err(message: string)

  /** A value of the JavaScript heap. Numbers are modelled as integers. */
  datatype Value =
    | Undefined
    | Null
    | Bool(b: bool)
    | Num(n: int)
    | Str(s: string)
    | Arr(items: seq<Value>)
    | Obj(entries: seq<(string, Value)>)
    /** An instance of a subclass of BaseDTO, named by its class. */
    | Dto(cls: string, fields: seq<(string, Value)>)

  type Entries = seq<(string, Value)>

  /** `string | null | undefined`, the type of every optional string field. */
  type NullableString = v: Value | v.Undefined? || v.Null? || v.Str? witness Undefined

  /** JavaScript truthiness (NaN is not modelled): null and undefined are falsy, and every
      object or array is truthy, even an empty one. */
  predicate Truthy(v: Value)
    ensures v.Undefined? || v.Null? ==> !Truthy(v)
    ensures v.Arr? || v.Obj? || v.Dto? ==> Truthy(v)
  {
    match v
    case Undefined => false
    case Null => false
    case Bool(b) => b
    case Num(n) => n != 0
    case Str(s) => s != ""
    case _ => true
  }

  /** `a ?? b`: the right operand only when the left is null or undefined. */
  function Coalesce(a: Value, b: Value): (r: Value)
    ensures r == a || r == b
    ensures !a.Undefined? && !a.Null? ==> r == a
    ensures a.Undefined? || a.Null? ==> r == b
  {
    if a.Undefined? || a.Null? then b else a
  }

  function Keys(e: Entries): (ks: seq<string>)
    ensures |ks| == |e|
    ensures forall i :: 0 <= i < |e| ==> ks[i] == e[i].0
  {
    if e == [] then [] else [e[0].0] + Keys(e[1..])
  }

  predicate DistinctKeys(e: Entries)
  {
    forall i, j :: 0 <= i < j < |e| ==> e[i].0 != e[j].0
  }

  /** A number computed from the length and the first two characters of a key: keys with
      different codes are different keys. */
  function KeyCode(k: string): int
  {
    |k| * 0x10000 + (if |k| > 0 then k[0] as int else 0) * 0x100 + (if |k| > 1 then k[1] as int else 0)
  }

  /** Entries whose keys have pairwise different codes have no key twice. */
  lemma DistinctByCode(e: Entries, codes: seq<int>)
    requires |codes| == |e| && forall i :: 0 <= i < |e| ==> KeyCode(e[i].0) == codes[i]
    requires forall i, j :: 0 <= i < j < |codes| ==> codes[i] != codes[j]
    ensures DistinctKeys(e)
  {
  }

  /** The position of the first entry named `k`. */
  function FirstIndex(e: Entries, k: string): (i: nat)
    requires k in Keys(e)
    ensures i < |e| && e[i].0 == k
    ensures forall j :: 0 <= j < i ==> e[j].0 != k
  {
    if e[0].0 == k then 0
    else
      assert Keys(e) == [e[0].0] + Keys(e[1..]);
      1 + FirstIndex(e[1..], k)
  }

  /** Property read `o[k]` on a plain object. */
  function Get(e: Entries, k: string): (r: Option<Value>)
    ensures r.None? <==> k !in Keys(e)
  {
    if k in Keys(e) then Some(e[FirstIndex(e, k)].1) else None
  }

  lemma GetAt(e: Entries, i: nat)
    requires DistinctKeys(e) && i < |e|
    ensures Get(e, e[i].0) == Some(e[i].1)
  {
    assert Keys(e)[i] == e[i].0;
  }

  /** With distinct keys, the key of entry `i` reads as the value of entry `i`. */
  lemma GetAtKey(e: Entries, i: nat, k: string)
    requires DistinctKeys(e) && i < |e| && e[i].0 == k
    ensures Get(e, k) == Some(e[i].1)
  {
    GetAt(e, i);
  }

  /** Assignment `o[k] = v`. */
  function Put(e: Entries, k: string, v: Value): (r: Entries)
    ensures k in Keys(e) ==> |r| == |e| && Keys(r) == Keys(e)
    ensures k !in Keys(e) ==> r == e + [(k, v)]
    ensures forall i :: 0 <= i < |e| && e[i].0 != k ==> r[i] == e[i]
    ensures forall i :: 0 <= i < |e| && e[i].0 == k ==> r[i] == (k, v)
  {
    if k in Keys(e) then
      seq(|e|, i requires 0 <= i < |e| => if e[i].0 == k then (k, v) else e[i])
    else e + [(k, v)]
  }

  lemma GetByFirst(e: Entries, k: string, i: nat)
    requires i < |e| && e[i].0 == k
    requires forall j :: 0 <= j < i ==> e[j].0 != k
    ensures Get(e, k) == Some(e[i].1)
  {
    assert Keys(e)[i] == k;
  }

  lemma GetAbsent(e: Entries, k: string)
    requires forall j :: 0 <= j < |e| ==> e[j].0 != k
    ensures Get(e, k) == None
  {
  }

  /** After `o[k] = v`, reading `k` gives `v` and every other key reads as before. */
  lemma PutGet(e: Entries, k: string, v: Value, k': string)
    ensures Get(Put(e, k, v), k') == if k' == k then Some(v) else Get(e, k')
  {
    var r := Put(e, k, v);
    assert forall j :: 0 <= j < |e| ==> r[j].0 == e[j].0;
    if k' in Keys(e) {
      var i := FirstIndex(e, k');
      GetByFirst(r, k', i);
    } else {
      assert forall j :: 0 <= j < |e| ==> e[j].0 != k' by {
        forall j | 0 <= j < |e| ensures e[j].0 != k' {
          assert Keys(e)[j] == e[j].0;
        }
      }
      if k' == k {
        GetByFirst(r, k, |e|);
      } else {
        GetAbsent(r, k');
      }
    }
  }

  /** `PutGet` for every key at once. */
  lemma PutGetAll(e: Entries, k: string, v: Value)
    ensures forall k' :: Get(Put(e, k, v), k') == if k' == k then Some(v) else Get(e, k')
  {
    forall k' {
      PutGet(e, k, v, k');
    }
  }

  lemma {:induction false} PutDistinct(e: Entries, k: string, v: Value)
    requires DistinctKeys(e)
    ensures DistinctKeys(Put(e, k, v))
  {
    var r := Put(e, k, v);
    if k in Keys(e) {
      forall i, j | 0 <= i < j < |r| ensures r[i].0 != r[j].0 {
        assert r[i].0 == Keys(r)[i] == Keys(e)[i] == e[i].0;
        assert r[j].0 == Keys(r)[j] == Keys(e)[j] == e[j].0;
      }
    } else {
      forall i, j | 0 <= i < j < |r| ensures r[i].0 != r[j].0 {
        if j == |e| {
          assert r[i].0 == Keys(e)[i];
        }
      }
    }
  }

  /** The object spread `{...a, ...b}`: the entries of `b` assigned over those of `a`, in order. */
  function Spread(a: Entries, b: Entries): (r: Entries)
    ensures |a| <= |r| <= |a| + |b|
    ensures forall i :: 0 <= i < |a| ==> r[i].0 == a[i].0
    decreases |b|
  {
    if b == [] then a else Spread(Put(a, b[0].0, b[0].1), b[1..])
  }

  /** A key of the right operand reads as its last value there; any other key reads as in the left. */
  lemma {:induction false} SpreadGet(a: Entries, b: Entries, k: string)
    ensures Get(Spread(a, b), k) == if k in Keys(b) then LastGet(b, k) else Get(a, k)
    decreases |b|
  {
    if b != [] {
      SpreadGet(Put(a, b[0].0, b[0].1), b[1..], k);
      PutGet(a, b[0].0, b[0].1, k);
      assert Keys(b) == [b[0].0] + Keys(b[1..]);
    }
  }

  /** Every key of the left operand keeps its position; the new keys come after. */
  lemma {:induction false} SpreadKeysPrefix(a: Entries, b: Entries)
    ensures |Spread(a, b)| >= |a|
    ensures Keys(Spread(a, b))[..|a|] == Keys(a)
    decreases |b|
  {
    if b != [] {
      var a' := Put(a, b[0].0, b[0].1);
      SpreadKeysPrefix(a', b[1..]);
      assert Keys(a')[..|a|] == Keys(a);
    }
  }

  lemma KeysAppend(a: Entries, x: (string, Value))
    ensures Keys(a + [x]) == Keys(a) + [x.0]
  {
    assert |Keys(a + [x])| == |Keys(a) + [x.0]|;
    forall i | 0 <= i < |a| + 1 ensures Keys(a + [x])[i] == (Keys(a) + [x.0])[i] {
      if i < |a| { assert (a + [x])[i] == a[i]; }
    }
  }

  /** Assigning a key no entry has appends it. */
  lemma PutFresh(e: Entries, k: string, v: Value)
    requires forall j :: 0 <= j < |e| ==> e[j].0 != k
    ensures Put(e, k, v) == e + [(k, v)]
  {
    assert k !in Keys(e) by {
      forall j | 0 <= j < |e| ensures Keys(e)[j] != k {
        assert Keys(e)[j] == e[j].0;
      }
    }
  }

  /** With distinct keys, the key at `n` is not among the first `n`. */
  lemma DistinctPrefixFresh(e: Entries, n: nat)
    requires DistinctKeys(e) && n < |e|
    ensures forall j :: 0 <= j < |e[..n]| ==> e[..n][j].0 != e[n].0
    ensures e[..n + 1] == e[..n] + [e[n]]
  {
  }

  /** Dropping the first entry keeps the keys distinct. */
  lemma DistinctTail(e: Entries)
    requires DistinctKeys(e) && e != []
    ensures DistinctKeys(e[1..])
  {
    forall i, j | 0 <= i < j < |e| - 1 ensures e[1..][i].0 != e[1..][j].0 {
      assert e[1..][i] == e[i + 1] && e[1..][j] == e[j + 1];
    }
  }

  /** Spreading entries with fresh, distinct keys appends them. */
  lemma {:induction false} SpreadFresh(a: Entries, b: Entries)
    requires DistinctKeys(b)
    requires forall i, j :: 0 <= i < |b| && 0 <= j < |a| ==> b[i].0 != a[j].0
    ensures Spread(a, b) == a + b
    decreases |b|
  {
    if b != [] {
      SpreadFreshStep(a, b);
      SpreadFresh(a + [b[0]], b[1..]);
    }
  }

  /** Spreading entries with distinct keys into an empty object copies them. */
  lemma SpreadFreshEmpty(b: Entries)
    requires DistinctKeys(b)
    ensures Spread([], b) == b
  {
    SpreadFresh([], b);
  }

  /** One step of SpreadFresh: the first entry is appended and the rest stay fresh. */
  lemma SpreadFreshStep(a: Entries, b: Entries)
    requires b != [] && DistinctKeys(b)
    requires forall i, j :: 0 <= i < |b| && 0 <= j < |a| ==> b[i].0 != a[j].0
    ensures Spread(a, b) == Spread(a + [b[0]], b[1..])
    ensures a + [b[0]] + b[1..] == a + b
    ensures DistinctKeys(b[1..])
    ensures forall i, j :: 0 <= i < |b[1..]| && 0 <= j < |a + [b[0]]| ==> b[1..][i].0 != (a + [b[0]])[j].0
  {
    PutFresh(a, b[0].0, b[0].1);
    DistinctTail(b);
    assert a + [b[0]] + b[1..] == a + b;
    forall i, j | 0 <= i < |b| - 1 && 0 <= j < |a| + 1 ensures b[1..][i].0 != (a + [b[0]])[j].0 {
      assert b[1..][i] == b[i + 1];
    }
  }

  /** Spreading one more entry is one more assignment. */
  lemma {:induction false} SpreadStep(a: Entries, b: Entries, x: (string, Value))
    ensures Spread(a, b + [x]) == Put(Spread(a, b), x.0, x.1)
    decreases |b|
  {
    if b == [] {
      assert b + [x] == [x];
    } else {
      assert (b + [x])[1..] == b[1..] + [x];
      SpreadStep(Put(a, b[0].0, b[0].1), b[1..], x);
    }
  }

  /** Spreading into an object with distinct keys keeps them distinct. */
  lemma {:induction false} SpreadDistinct(a: Entries, b: Entries)
    requires DistinctKeys(a)
    ensures DistinctKeys(Spread(a, b))
    decreases |b|
  {
    if b != [] {
      PutDistinct(a, b[0].0, b[0].1);
      SpreadDistinct(Put(a, b[0].0, b[0].1), b[1..]);
    }
  }

  /** The value read for `k` in an object literal with repeated keys: the last one written. */
  function LastGet(e: Entries, k: string): (r: Option<Value>)
    ensures r.None? <==> k !in Keys(e)
  {
    if e == [] then None
    else
      var rest := LastGet(e[1..], k);
      if rest.Some? then rest else if e[0].0 == k then Some(e[0].1) else None
  }

  /** With distinct keys, the last value written for a key is its only one. */
  lemma {:induction false} LastGetDistinct(e: Entries, k: string)
    requires DistinctKeys(e)
    ensures LastGet(e, k) == Get(e, k)
  {
    if e != [] {
      var tail := e[1..];
      assert DistinctKeys(tail) by {
        forall i, j | 0 <= i < j < |tail| ensures tail[i].0 != tail[j].0 {
          assert tail[i] == e[i + 1] && tail[j] == e[j + 1];
        }
      }
      LastGetDistinct(tail, k);
      if e[0].0 == k {
        GetByFirst(e, k, 0);
        forall j | 0 <= j < |tail| ensures tail[j].0 != k {
          assert tail[j] == e[j + 1];
        }
        GetAbsent(tail, k);
      } else if k in Keys(tail) {
        var i := FirstIndex(tail, k);
        GetByFirst(tail, k, i);
        assert e[i + 1] == tail[i];
        GetByFirst(e, k, i + 1);
      } else {
        assert Keys(e) == [e[0].0] + Keys(tail);
        GetAbsent(e, k);
      }
    }
  }

  /** `Object.keys(v)` of a value that is not null or undefined. */
  function OwnKeys(v: Value): (ks: seq<string>)
    requires !v.Undefined? && !v.Null?
    ensures v.Bool? || v.Num? ==> ks == []
    ensures v.Str? ==> |ks| == |v.s|
    ensures v.Arr? ==> |ks| == |v.items|
    ensures v.Obj? ==> |ks| == |v.entries| && forall i :: 0 <= i < |ks| ==> ks[i] == v.entries[i].0
    ensures v.Dto? ==> |ks| == |v.fields| && forall i :: 0 <= i < |ks| ==> ks[i] == v.fields[i].0
  {
    match v
    case Bool(_) => []
    case Num(_) => []
    case Str(s) => IndexKeys(|s|)
    case Arr(items) => IndexKeys(|items|)
    case Obj(e) => Keys(e)
    case Dto(_, e) => Keys(e)
  }

  /** `v && Object.keys(v).length === 0 ? null : v`: a truthy value without own keys (an empty
      object or array, `true`, a non-zero number) becomes null; anything else is kept. */
  function EmptyToNull(v: Value): (r: Value)
    ensures r == v || r == Null
    ensures r != v <==> Truthy(v) && |OwnKeys(v)| == 0
    ensures v.Obj? ==> (r == Null <==> v.entries == [])
    ensures v.Undefined? || v.Null? ==> r == v
  {
    if Truthy(v) && |OwnKeys(v)| == 0 then Null else v
  }

  /** Converting twice is converting once. */
  lemma EmptyToNullIdempotent(v: Value)
    ensures EmptyToNull(EmptyToNull(v)) == EmptyToNull(v)
  {
  }

  /** The keys "0", "1", ... of an array or string of length `n`. */
  function IndexKeys(n: nat): (ks: seq<string>)
    ensures |ks| == n
  {
    if n == 0 then [] else IndexKeys(n - 1) + [NatToString(n - 1)]
  }

  /** Decimal rendering of a number, as `String(n)` gives it. */
  function IntToString(n: int): (s: string)
    ensures s != ""
  {
    if n < 0 then "-" + NatToString(-n) else NatToString(n)
  }

  function NatToString(n: nat): (s: string)
    ensures s != ""
    ensures forall i :: 0 <= i < |s| ==> '0' <= s[i] <= '9'
  {
    if n < 10 then [Digit(n)] else NatToString(n / 10) + [Digit(n % 10)]
  }

  function Digit(d: nat): (c: char)
    requires d < 10
    ensures '0' <= c <= '9'
  {
    ['0', '1', '2', '3', '4', '5', '6', '7', '8', '9'][d]
  }

  /** `String(v)` for the values a URL query or an array join may hold. */
  function ToText(v: Value): string
    decreases v, 1
  {
    match v
    case Undefined => "undefined"
    case Null => "null"
    case Bool(b) => if b then "true" else "false"
    case Num(n) => IntToString(n)
    case Str(s) => s
    case Arr(items) => JoinPrefix(v, |items|, ",")
    case Obj(_) => "[object Object]"
    case Dto(_, _) => "[object Object]"
  }

  /** `Array.prototype.join(sep)`: null and undefined elements become empty. */
  function Join(items: seq<Value>, sep: string): string
  {
    JoinPrefix(Arr(items), |items|, sep)
  }

  /** The join of the first `n` items of array `a`. */
  function JoinPrefix(a: Value, n: nat, sep: string): string
    requires a.Arr? && n <= |a.items|
    decreases a, 0, n
  {
    if n == 0 then ""
    else
      var item := a.items[n - 1];
      var part := if item.Undefined? || item.Null? then "" else ToText(item);
      if n == 1 then part else JoinPrefix(a, n - 1, sep) + sep + part
  }
}
