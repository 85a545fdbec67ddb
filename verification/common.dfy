/**
 * Shared vocabulary of the model: optional values, HTTP outcomes, the two
 * user roles, and the JavaScript string operations the application relies on
 * (digit filtering, `trim`, ASCII lower-casing, number formatting), plus the
 * descending sort that the database applies to listings.
 */
module Common {

  datatype Option<T> = None | Some(value: T)

  /** The HTTP status codes the handlers answer with. */
  datatype HttpStatus = OK | Created | Accepted | BadRequest | Unauthorized | Forbidden | NotFound | ServerError

  function Code(s: HttpStatus): (c: nat)
    ensures 200 <= c < 600
    ensures c < 300 <==> s in {OK, Created, Accepted}
  {
    match s
    case OK => 200
    case Created => 201
    case Accepted => 202
    case BadRequest => 400
    case Unauthorized => 401
    case Forbidden => 403
    case NotFound => 404
    case ServerError => 500
  }

  /** The two account roles. */
  datatype Role = Customer | Employee

  /** An authenticated caller, as the token middleware puts it in `req.user`. */
  datatype Caller = Caller(id: nat, role: Role)

  /** `value || fallback` for an optional string from a request body. */
  function OrDefault(value: Option<string>, fallback: string): (r: string)
    ensures value.Some? && value.value != "" ==> r == value.value
    ensures value.None? || value.value == "" ==> r == fallback
  {
    if value.Some? && value.value != "" then value.value else fallback
  }

  // ---------------------------------------------------------------------
  // Characters
  // ---------------------------------------------------------------------

  /** `\d` and `[0-9]` of a JavaScript regular expression without the u flag. */
  predicate IsDigit(c: char) { '0' <= c <= '9' }

  /** `[a-zA-Z]`. */
  predicate IsAsciiLetter(c: char) { 'a' <= c <= 'z' || 'A' <= c <= 'Z' }

  /** `\w`: `[A-Za-z0-9_]`. */
  predicate IsWordChar(c: char) { IsAsciiLetter(c) || IsDigit(c) || c == '_' }

  /** The white space that `String.prototype.trim` removes. */
  predicate IsSpace(c: char)
  {
    c == ' ' || c == '\t' || c == '\n' || c == '\r' || c == '\U{000B}' || c == '\U{000C}'
    || c == '\U{00A0}' || c == '\U{1680}' || ('\U{2000}' <= c <= '\U{200A}')
    || c == '\U{2028}' || c == '\U{2029}' || c == '\U{202F}' || c == '\U{205F}'
    || c == '\U{3000}' || c == '\U{FEFF}'
  }

  predicate AllDigits(s: string) { forall i :: 0 <= i < |s| ==> IsDigit(s[i]) }

  // ---------------------------------------------------------------------
  // String operations
  // ---------------------------------------------------------------------

  /**
   * `r` is `s` with some elements left out, the rest kept in their order
   * (greedy matching decides this).
   */
  predicate Subsequence<T(==)>(r: seq<T>, s: seq<T>)
    decreases |s|
  {
    r == [] || (s != [] && if r[0] == s[0] then Subsequence(r[1..], s[1..]) else Subsequence(r, s[1..]))
  }

  /** `s.replace(/[^0-9]/g, '')`: the digits of `s`, in order (see DigitsInOrder). */
  function Digits(s: string): (r: string)
    ensures AllDigits(r)
    ensures |r| <= |s|
    ensures AllDigits(s) ==> r == s
  {
    if s == [] then []
    else if IsDigit(s[0]) then [s[0]] + Digits(s[1..])
    else Digits(s[1..])
  }

  /**
   * `Digits(s)` keeps the digits of `s` in their order and drops nothing
   * else: a subsequence of `s` holding every digit of `s` as often as `s`
   * does, and only digits, is exactly the digit subsequence.
   */
  lemma {:induction false} DigitsInOrder(s: string)
    ensures Subsequence(Digits(s), s)
    ensures forall c :: IsDigit(c) ==> multiset(Digits(s))[c] == multiset(s)[c]
  {
    if s != [] {
      assert s == [s[0]] + s[1..];
      DigitsInOrder(s[1..]);
      var rest := Digits(s[1..]);
      if IsDigit(s[0]) {
        assert ([s[0]] + rest)[1..] == rest;
      }
    }
  }

  lemma {:induction false} DigitsAppend(a: string, b: string)
    ensures Digits(a + b) == Digits(a) + Digits(b)
  {
    if a == [] {
      assert a + b == b;
    } else {
      assert (a + b)[1..] == a[1..] + b;
      DigitsAppend(a[1..], b);
    }
  }

  /** Digits joined by a dash keep only the digits. */
  lemma DigitsJoin(a: string, b: string)
    requires AllDigits(a) && AllDigits(b)
    ensures Digits(a + "-" + b) == a + b
  {
    var x := a + "-";
    assert Digits(x) == a by {
      assert Digits("-") == [];
      DigitsAppend(a, "-");
    }
    DigitsAppend(x, b);
  }

  lemma DigitsJoin3(a: string, b: string, c: string)
    requires AllDigits(a) && AllDigits(b) && AllDigits(c)
    ensures Digits(a + "-" + b + "-" + c) == a + b + c
  {
    var x := a + "-" + b;
    var y := "-" + c;
    assert Digits(x) == a + b by {
      DigitsJoin(a, b);
    }
    assert Digits(y) == c by {
      DigitsAppend("-", c);
      assert Digits("-") == [];
    }
    assert a + "-" + b + "-" + c == x + y;
    DigitsAppend(x, y);
  }

  /** `s.replace(/c/g, '')`: `s` with every `c` removed (see WithoutInOrder). */
  function Without<T(==)>(s: seq<T>, c: T): (r: seq<T>)
    ensures c !in r
    ensures |r| <= |s|
    ensures forall x :: x in r ==> x in s
  {
    if s == [] then []
    else if s[0] == c then Without(s[1..], c)
    else [s[0]] + Without(s[1..], c)
  }

  /** Every element other than `c` is kept, as often as in `s` and in its order. */
  lemma {:induction false} WithoutInOrder<T>(s: seq<T>, c: T)
    ensures Subsequence(Without(s, c), s)
    ensures forall x :: x in s && x != c ==> multiset(Without(s, c))[x] == multiset(s)[x]
  {
    if s != [] {
      assert s == [s[0]] + s[1..];
      WithoutInOrder(s[1..], c);
      var rest := Without(s[1..], c);
      if s[0] != c {
        assert ([s[0]] + rest)[1..] == rest;
      }
    }
  }

  lemma {:induction false} WithoutAppend<T>(a: seq<T>, b: seq<T>, c: T)
    ensures Without(a + b, c) == Without(a, c) + Without(b, c)
  {
    if a == [] {
      assert a + b == b;
    } else {
      assert (a + b)[1..] == a[1..] + b;
      WithoutAppend(a[1..], b, c);
    }
  }

  lemma {:induction false} WithoutAbsent<T>(s: seq<T>, c: T)
    requires c !in s
    ensures Without(s, c) == s
  {
    if s != [] {
      WithoutAbsent(s[1..], c);
    }
  }

  lemma {:induction false} WithoutKeepsOthers<T>(s: seq<T>, c: T, x: T)
    requires x != c
    ensures x in Without(s, c) <==> x in s
  {
    if s != [] {
      WithoutKeepsOthers(s[1..], c, x);
    }
  }

  function DigitChar(d: nat): (c: char)
    requires d < 10
    ensures IsDigit(c)
  {
    ('0' as int + d) as char
  }

  /** The number a string of decimal digits denotes. */
  function DecimalValue(r: string): nat
    requires AllDigits(r)
  {
    if r == [] then 0 else DecimalValue(r[..|r| - 1]) * 10 + (r[|r| - 1] as int - '0' as int)
  }

  /** `String(n)` for a non-negative integer (see NatToStringValue). */
  function NatToString(n: nat): (r: string)
    ensures |r| >= 1
    ensures AllDigits(r)
    ensures n < 10 ==> r == [DigitChar(n)]
  {
    if n < 10 then [DigitChar(n)] else NatToString(n / 10) + [DigitChar(n % 10)]
  }

  /** The text is the decimal notation of `n`: it denotes `n` and has no leading zero. */
  lemma {:induction false} NatToStringValue(n: nat)
    ensures DecimalValue(NatToString(n)) == n
    ensures NatToString(n)[0] == '0' ==> n == 0
  {
    if n >= 10 {
      NatToStringValue(n / 10);
      var prefix := NatToString(n / 10);
      var r := NatToString(n);
      assert r == prefix + [DigitChar(n % 10)];
      assert r[..|r| - 1] == prefix;
      assert r[0] == prefix[0];
    }
  }

  /** `String(n)` for any integer. */
  function IntToString(n: int): (r: string)
    ensures |r| >= 1
  {
    if n < 0 then "-" + NatToString(-n) else NatToString(n)
  }

  /** `String.prototype.trimStart`. */
  function TrimStart(s: string): (r: string)
    ensures |r| <= |s|
    ensures r == [] || !IsSpace(r[0])
  {
    if s != [] && IsSpace(s[0]) then TrimStart(s[1..]) else s
  }

  /** `String.prototype.trimEnd`. */
  function TrimEnd(s: string): (r: string)
    ensures |r| <= |s| && r == s[..|r|]
    ensures r == [] || !IsSpace(r[|r| - 1])
  {
    if s != [] && IsSpace(s[|s| - 1]) then TrimEnd(s[..|s| - 1]) else s
  }

  /** `String.prototype.trim` (see TrimIsSlice). */
  function Trim(s: string): (r: string)
    ensures |r| <= |s|
    ensures r == [] || (!IsSpace(r[0]) && !IsSpace(r[|r| - 1]))
  {
    TrimEnd(TrimStart(s))
  }

  /** `TrimStart` drops a run of white space from the front and nothing else. */
  lemma {:induction false} TrimStartDrops(s: string)
    ensures TrimStart(s) == s[|s| - |TrimStart(s)|..]
    ensures forall k :: 0 <= k < |s| - |TrimStart(s)| ==> IsSpace(s[k])
  {
    if s != [] && IsSpace(s[0]) {
      TrimStartDrops(s[1..]);
    }
  }

  /** `TrimEnd` drops a run of white space from the back and nothing else. */
  lemma {:induction false} TrimEndDrops(s: string)
    ensures forall k :: |TrimEnd(s)| <= k < |s| ==> IsSpace(s[k])
  {
    if s != [] && IsSpace(s[|s| - 1]) {
      TrimEndDrops(s[..|s| - 1]);
    }
  }

  /**
   * `Trim(s)` is the slice of `s` left after dropping the white space at
   * both ends: everything before and after the slice is white space.
   */
  lemma TrimIsSlice(s: string)
    ensures exists i, j :: (0 <= i <= j <= |s| && Trim(s) == s[i..j]
                            && (forall k :: 0 <= k < i ==> IsSpace(s[k])) && (forall k :: j <= k < |s| ==> IsSpace(s[k])))
  {
    var u := TrimStart(s);
    var r := TrimEnd(u);
    TrimStartDrops(s);
    TrimEndDrops(u);
    var i := |s| - |u|;
    assert r == s[i..i + |r|];
    forall k | i + |r| <= k < |s|
      ensures IsSpace(s[k])
    {
      assert s[k] == u[k - i];
    }
  }

  lemma {:induction false} TrimStartNoSpace(s: string)
    requires s == [] || !IsSpace(s[0])
    ensures TrimStart(s) == s
  {
  }

  lemma TrimIdempotent(s: string)
    ensures Trim(Trim(s)) == Trim(s)
  {
    var t := Trim(s);
    var u := TrimStart(s);
    assert TrimEnd(u) == t;
    if t != [] {
      assert !IsSpace(t[0]);
    }
    TrimStartNoSpace(t);
    TrimEndOfTrimmed(t);
  }

  lemma TrimEndOfTrimmed(t: string)
    requires t == [] || !IsSpace(t[|t| - 1])
    ensures TrimEnd(t) == t
  {
  }

  function ToLowerChar(c: char): char
  {
    if 'A' <= c <= 'Z' then (c as int + 32) as char else c
  }

  /** `String.prototype.toLowerCase`, restricted to ASCII letters. */
  function ToLower(s: string): (r: string)
    ensures |r| == |s|
    ensures forall i :: 0 <= i < |s| ==> r[i] == ToLowerChar(s[i])
  {
    if s == [] then [] else [ToLowerChar(s[0])] + ToLower(s[1..])
  }

  lemma ToLowerIdempotent(s: string)
    ensures ToLower(ToLower(s)) == ToLower(s)
  {
  }

  // ---------------------------------------------------------------------
  // Descending sort (`.sort({ key: -1 })`)
  // ---------------------------------------------------------------------

  ghost predicate SortedDesc<T>(s: seq<T>, key: T -> int)
  {
    forall i, j :: 0 <= i < j < |s| ==> key(s[i]) >= key(s[j])
  }

  function InsertDesc<T(==)>(x: T, s: seq<T>, key: T -> int): (r: seq<T>)
    ensures multiset(r) == multiset(s) + multiset{x}
  {
    if s == [] then [x]
    else if key(x) >= key(s[0]) then [x] + s
    else
      assert s == [s[0]] + s[1..];
      [s[0]] + InsertDesc(x, s[1..], key)
  }

  lemma ConsSorted<T>(a: T, t: seq<T>, key: T -> int)
    requires SortedDesc(t, key)
    requires forall k :: 0 <= k < |t| ==> key(a) >= key(t[k])
    ensures SortedDesc([a] + t, key)
  {
    var r := [a] + t;
    forall i, j | 0 <= i < j < |r| ensures key(r[i]) >= key(r[j]) {
      assert r[j] == t[j - 1];
      if i > 0 {
        assert r[i] == t[i - 1];
      }
    }
  }

  lemma TailSorted<T>(s: seq<T>, key: T -> int)
    requires s != [] && SortedDesc(s, key)
    ensures SortedDesc(s[1..], key)
    ensures forall k :: 0 <= k < |s[1..]| ==> key(s[0]) >= key(s[1..][k])
  {
    var tail := s[1..];
    forall i, j | 0 <= i < j < |tail| ensures key(tail[i]) >= key(tail[j]) {
      assert tail[i] == s[i + 1] && tail[j] == s[j + 1];
    }
    forall k | 0 <= k < |tail| ensures key(s[0]) >= key(tail[k]) {
      assert tail[k] == s[k + 1];
    }
  }

  lemma {:induction false} InsertDescSorted<T>(x: T, s: seq<T>, key: T -> int)
    requires SortedDesc(s, key)
    ensures SortedDesc(InsertDesc(x, s, key), key)
  {
    if s == [] {
    } else if key(x) >= key(s[0]) {
      forall k | 0 <= k < |s| ensures key(x) >= key(s[k]) {
      }
      ConsSorted(x, s, key);
    } else {
      var tail := s[1..];
      var rest := InsertDesc(x, tail, key);
      TailSorted(s, key);
      InsertDescSorted(x, tail, key);
      forall k | 0 <= k < |rest| ensures key(s[0]) >= key(rest[k]) {
        var y := rest[k];
        assert y in multiset(rest);
        if y != x {
          assert y in multiset(tail);
          var m :| 0 <= m < |tail| && tail[m] == y;
        }
      }
      ConsSorted(s[0], rest, key);
    }
  }

  /** The records of `s` ordered by `key`, largest first. */
  function SortDesc<T(==)>(s: seq<T>, key: T -> int): (r: seq<T>)
    ensures multiset(r) == multiset(s)
  {
    if s == [] then []
    else
      assert s == [s[0]] + s[1..];
      InsertDesc(s[0], SortDesc(s[1..], key), key)
  }

  lemma {:induction false} SortDescSorted<T>(s: seq<T>, key: T -> int)
    ensures SortedDesc(SortDesc(s, key), key)
  {
    if s != [] {
      SortDescSorted(s[1..], key);
      InsertDescSorted(s[0], SortDesc(s[1..], key), key);
    }
  }

  /** The keys among `ks` that `m` maps to `v`. */
  function KeysOf<K, V(==)>(m: map<K, V>, ks: set<K>, v: V): set<K>
  {
    set k | k in ks && k in m && m[k] == v
  }

  lemma KeysOfAdd<K, V>(m: map<K, V>, ks: set<K>, k: K, v: V)
    requires k in m && k !in ks
    ensures |KeysOf(m, ks + {k}, v)| == |KeysOf(m, ks, v)| + (if m[k] == v then 1 else 0)
  {
    if m[k] == v {
      assert KeysOf(m, ks + {k}, v) == KeysOf(m, ks, v) + {k};
    } else {
      assert KeysOf(m, ks + {k}, v) == KeysOf(m, ks, v);
    }
  }

  /**
   * The values of a keyed store, one per key, in some order: each value
   * occurs as often as there are keys holding it.
   */
  method MapValues<K, V(==)>(m: map<K, V>) returns (s: seq<V>)
    ensures |s| == |m|
    ensures forall v :: v in s <==> v in m.Values
    ensures forall v :: multiset(s)[v] == |KeysOf(m, m.Keys, v)|
  {
    s := [];
    var rest := m.Keys;
    while rest != {}
      invariant rest <= m.Keys
      invariant |s| + |rest| == |m.Keys|
      invariant forall v :: v in s <==> exists k :: k in m.Keys && k !in rest && m[k] == v
      invariant forall v :: multiset(s)[v] == |KeysOf(m, m.Keys - rest, v)|
      decreases |rest|
    {
      var k :| k in rest;
      forall v ensures multiset(s + [m[k]])[v] == |KeysOf(m, m.Keys - (rest - {k}), v)| {
        assert m.Keys - (rest - {k}) == (m.Keys - rest) + {k};
        KeysOfAdd(m, m.Keys - rest, k, v);
      }
      s := s + [m[k]];
      rest := rest - {k};
    }
    assert m.Keys - rest == m.Keys;
    forall v ensures v in s <==> v in m.Values {
      if v in m.Values {
        var k :| k in m && m[k] == v;
      }
    }
  }

  /** The records of `s` satisfying `p`, in order. */
  function Filter<T(==)>(s: seq<T>, p: T -> bool): (r: seq<T>)
    ensures |r| <= |s|
    ensures forall x :: x in r ==> x in s && p(x)
    ensures forall x :: x in s && p(x) ==> x in r
    ensures Subsequence(r, s)
    ensures forall x :: x in s ==> multiset(r)[x] == if p(x) then multiset(s)[x] else 0
  {
    if s == [] then []
    else
      assert s == [s[0]] + s[1..];
      if p(s[0]) then
        var rest := Filter(s[1..], p);
        assert ([s[0]] + rest)[1..] == rest;
        [s[0]] + rest
      else Filter(s[1..], p)
  }
}
