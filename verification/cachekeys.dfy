/** Cache keys of the tool layer. A tool's keyword arguments form a Python
    dict: distinct names in insertion order, each with a value. The key is
    the tool name plus the (name, value) pairs sorted by name; the MD5 of its
    JSON text is treated as an injective encoding and not modelled. */
module CacheKeys {
  import opened Values
  import Text

  /** Keyword arguments: `order` is the dict's insertion order, `vals` its contents. */
  datatype KwArgs = KwArgs(order: seq<string>, vals: map<string, Value>)

  predicate Distinct(o: seq<string>) {
    forall i, j :: 0 <= i < j < |o| ==> o[i] != o[j]
  }

  /** Every Python dict is well formed: names are distinct and are exactly the keys. */
  predicate WellFormed(kw: KwArgs) {
    && Distinct(kw.order)
    && (forall k :: k in kw.order ==> k in kw.vals)
    && (forall k :: k in kw.vals ==> k in kw.order)
  }

  /** Two keyword-argument dicts that hold the same pairs, in any order. */
  predicate SameArguments(a: KwArgs, b: KwArgs) {
    a.vals == b.vals
  }

  predicate StrictlySorted(s: seq<string>) {
    forall i, j :: 0 <= i < j < |s| ==> Text.Less(s[i], s[j])
  }

  /** Insert one name into a sorted list of names (a name already present is not repeated). */
  function Insert(x: string, s: seq<string>): (r: seq<string>)
    ensures forall y :: y in r <==> y == x || y in s
    ensures StrictlySorted(s) ==> StrictlySorted(r)
    ensures x !in s ==> |r| == |s| + 1
  {
    if |s| == 0 then [x]
    else if x == s[0] then s
    else if Text.Less(x, s[0]) then
      assert StrictlySorted(s) ==> StrictlySorted([x] + s) by {
        if StrictlySorted(s) {
          forall i, j | 0 <= i < j < |s| + 1 ensures Text.Less(([x] + s)[i], ([x] + s)[j]) {
            if i == 0 && j > 1 {
              Text.LessTransitive(x, s[0], s[j - 1]);
            }
          }
        }
      }
      [x] + s
    else
      var rest := Insert(x, s[1..]);
      assert StrictlySorted(s) ==> StrictlySorted([s[0]] + rest) by {
        if StrictlySorted(s) {
          assert StrictlySorted(s[1..]);
          Text.LessTotal(x, s[0]);
          forall y | y in rest ensures Text.Less(s[0], y) {
            if y != x {
              var i :| 0 <= i < |s[1..]| && s[1..][i] == y;
              assert y == s[i + 1];
            }
          }
          forall i, j | 0 <= i < j < |rest| + 1
            ensures Text.Less(([s[0]] + rest)[i], ([s[0]] + rest)[j])
          {
            if i == 0 {
              assert rest[j - 1] in rest;
            }
          }
        }
      }
      [s[0]] + rest
  }

  /** `sorted(names)`. */
  function SortKeys(o: seq<string>): (r: seq<string>)
    ensures StrictlySorted(r)
    ensures forall y :: y in r <==> y in o
    ensures Distinct(o) ==> |r| == |o|
  {
    if |o| == 0 then []
    else
      var rest := SortKeys(o[1..]);
      Insert(o[0], rest)
  }

  lemma HeadIsMember(s: seq<string>)
    ensures |s| > 0 ==> s[0] in s
  {
  }

  /** Two strictly sorted lists with the same members are the same list. */
  lemma {:induction false} SortedUnique(a: seq<string>, b: seq<string>)
    requires StrictlySorted(a) && StrictlySorted(b)
    requires forall y :: y in a <==> y in b
    ensures a == b
  {
    if |a| > 0 && |b| > 0 {
      if a[0] != b[0] {
        assert a[0] in b;
        var j :| 0 <= j < |b| && b[j] == a[0];
        assert b[0] in a;
        var i :| 0 <= i < |a| && a[i] == b[0];
        assert Text.Less(b[0], a[0]);
        assert Text.Less(a[0], b[0]);
        Text.LessAsymmetric(a[0], b[0]);
        assert false;
      }
      forall y ensures y in a[1..] <==> y in b[1..] {
        if y in a[1..] {
          var i :| 0 <= i < |a[1..]| && a[1..][i] == y;
          assert Text.Less(a[0], y);
          if y == a[0] { Text.LessIrreflexive(y); }
          assert y in b;
        }
        if y in b[1..] {
          var i :| 0 <= i < |b[1..]| && b[1..][i] == y;
          assert Text.Less(b[0], y);
          if y == b[0] { Text.LessIrreflexive(y); }
          assert y in a;
        }
      }
      SortedUnique(a[1..], b[1..]);
      assert a == [a[0]] + a[1..] && b == [b[0]] + b[1..];
    } else if |a| > 0 {
      HeadIsMember(a);
      assert false;
    } else if |b| > 0 {
      HeadIsMember(b);
      assert false;
    }
  }

  /** The (name, value) pairs for the given names. */
  function Items(names: seq<string>, vals: map<string, Value>): (r: seq<(string, Value)>)
    requires forall k :: k in names ==> k in vals
    ensures |r| == |names|
    ensures forall i :: 0 <= i < |names| ==> r[i] == (names[i], vals[names[i]])
  {
    if |names| == 0 then [] else [(names[0], vals[names[0]])] + Items(names[1..], vals)
  }

  datatype CacheKey = CacheKey(tool: string, items: seq<(string, Value)>)

  /** `_get_cache_key`: the tool name and the argument pairs sorted by name. */
  function KeyOf(tool: string, kw: KwArgs): CacheKey
    requires WellFormed(kw)
  {
    CacheKey(tool, Items(SortKeys(kw.order), kw.vals))
  }

  /** The key does not depend on the order the arguments were passed in. */
  lemma {:induction false} KeyIgnoresOrder(tool: string, a: KwArgs, b: KwArgs)
    requires WellFormed(a) && WellFormed(b) && SameArguments(a, b)
    ensures KeyOf(tool, a) == KeyOf(tool, b)
  {
    SortedUnique(SortKeys(a.order), SortKeys(b.order));
  }

  /** Conversely, equal keys come from the same tool name and the same pairs. */
  lemma {:induction false} KeyDeterminesArguments(t1: string, a: KwArgs, t2: string, b: KwArgs)
    requires WellFormed(a) && WellFormed(b)
    requires KeyOf(t1, a) == KeyOf(t2, b)
    ensures t1 == t2 && SameArguments(a, b)
  {
    var sa, sb := SortKeys(a.order), SortKeys(b.order);
    var ia, ib := Items(sa, a.vals), Items(sb, b.vals);
    assert |sa| == |sb|;
    forall i | 0 <= i < |sa| ensures sa[i] == sb[i] && a.vals[sa[i]] == b.vals[sb[i]] {
      assert ia[i] == ib[i];
    }
    assert sa == sb;
    forall k | k in a.vals ensures k in b.vals && a.vals[k] == b.vals[k] {
      assert k in sa;
    }
    forall k | k in b.vals ensures k in a.vals {
      assert k in sb;
    }
  }
}
