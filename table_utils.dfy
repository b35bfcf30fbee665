/**
 * The two list and dictionary helpers of `table_utils.py`: the column filter
 * `drop_colnames`, and the nested lookup `safeget` with the `_subkey` dispatch of
 * `add_units_to_Table` that uses it on the parsed defaults file.
 */
module TableUtils {
  import opened Outcome

  // ---------------------------------------------------------------------------
  // drop_colnames

  /** `drop_colnames`: the names of `colnames` that are not among `args`, in their order. */
  function DropColnames(colnames: seq<string>, args: seq<string>): (r: seq<string>)
    ensures |r| <= |colnames|
  {
    if |colnames| == 0 then []
    else (if colnames[0] in args then [] else [colnames[0]]) + DropColnames(colnames[1..], args)
  }

  /** How many entries of `colnames` are among `args`. */
  function DroppedCount(colnames: seq<string>, args: seq<string>): nat {
    if |colnames| == 0 then 0
    else (if colnames[0] in args then 1 else 0) + DroppedCount(colnames[1..], args)
  }

  /** The length of the result is the number of entries kept. */
  lemma {:induction false} DropColnamesLength(colnames: seq<string>, args: seq<string>)
    ensures |DropColnames(colnames, args)| == |colnames| - DroppedCount(colnames, args)
    ensures DroppedCount(colnames, args) <= |colnames|
  {
    if |colnames| > 0 {
      DropColnamesLength(colnames[1..], args);
    }
  }

  /** A kept name keeps all its copies; a dropped name loses every one. */
  lemma {:induction false} DropColnamesMultiset(colnames: seq<string>, args: seq<string>, x: string)
    ensures multiset(DropColnames(colnames, args))[x] == if x in args then 0 else multiset(colnames)[x]
  {
    if |colnames| > 0 {
      DropColnamesMultiset(colnames[1..], args, x);
      assert colnames == [colnames[0]] + colnames[1..];
      assert multiset(colnames) == multiset([colnames[0]]) + multiset(colnames[1..]);
    }
  }

  /** `r` is `s` with some entries left out and the rest in their order. */
  predicate SubsequenceOf(r: seq<string>, s: seq<string>)
    decreases |s|
  {
    if |r| == 0 then true
    else if |s| == 0 then false
    else (r[0] == s[0] && SubsequenceOf(r[1..], s[1..])) || SubsequenceOf(r, s[1..])
  }

  /** The result keeps the order of `colnames`: it is a subsequence of it. */
  lemma {:induction false} DropColnamesSubsequence(colnames: seq<string>, args: seq<string>)
    ensures SubsequenceOf(DropColnames(colnames, args), colnames)
  {
    if |colnames| > 0 {
      DropColnamesSubsequence(colnames[1..], args);
      var tail := DropColnames(colnames[1..], args);
      if colnames[0] !in args {
        var r := [colnames[0]] + tail;
        assert DropColnames(colnames, args) == r;
        assert r[0] == colnames[0] && r[1..] == tail;
        assert SubsequenceOf(r[1..], colnames[1..]);
      } else {
        assert DropColnames(colnames, args) == tail;
        if |tail| > 0 {
          assert SubsequenceOf(tail, colnames[1..]);
        }
      }
    }
  }

  /** A name is in the result exactly when it is in `colnames` and not among `args`. */
  lemma {:induction false} DropColnamesMembers(colnames: seq<string>, args: seq<string>, x: string)
    ensures x in DropColnames(colnames, args) <==> x in colnames && x !in args
  {
    if |colnames| > 0 {
      DropColnamesMembers(colnames[1..], args, x);
      assert colnames == [colnames[0]] + colnames[1..];
    }
  }

  /** Dropping nothing keeps the list as it is. */
  lemma {:induction false} DropNothing(colnames: seq<string>)
    ensures DropColnames(colnames, []) == colnames
  {
    if |colnames| > 0 {
      DropNothing(colnames[1..]);
      assert colnames == [colnames[0]] + colnames[1..];
    }
  }

  /** Dropping the same names again changes nothing. */
  lemma {:induction false} DropTwice(colnames: seq<string>, args: seq<string>)
    ensures DropColnames(DropColnames(colnames, args), args) == DropColnames(colnames, args)
  {
    if |colnames| > 0 {
      DropTwice(colnames[1..], args);
      var tail := DropColnames(colnames[1..], args);
      if colnames[0] !in args {
        var r := [colnames[0]] + tail;
        assert DropColnames(colnames, args) == r;
        assert r[0] == colnames[0] && r[1..] == tail;
        assert DropColnames(r, args) == [colnames[0]] + DropColnames(tail, args);
      } else {
        assert DropColnames(colnames, args) == tail;
      }
    }
  }

  /** The filter distributes over concatenation: each part is filtered on its own. */
  lemma {:induction false} DropAppend(a: seq<string>, b: seq<string>, args: seq<string>)
    ensures DropColnames(a + b, args) == DropColnames(a, args) + DropColnames(b, args)
  {
    if |a| == 0 {
      assert a + b == b;
    } else {
      assert (a + b)[0] == a[0] && (a + b)[1..] == a[1..] + b;
      DropAppend(a[1..], b, args);
    }
  }

  // ---------------------------------------------------------------------------
  // safeget and the _subkey dispatch

  /** A value of the parsed JSON defaults file (numbers are integers here). */
  datatype Json =
    | Null
    | Bool(b: bool)
    | Number(n: int)
    | String(s: string)
    | Array(items: seq<Json>)
    | Object(fields: map<string, Json>)

  /** Python's complaint when a value that is not a dictionary is indexed with a string key. */
  function NotSubscriptable(j: Json): (message: string)
    requires !j.Object?
    ensures message != ""
  {
    match j
    case Null => "'NoneType' object is not subscriptable"
    case Bool(_) => "'bool' object is not subscriptable"
    case Number(_) => "'int' object is not subscriptable"
    case String(_) => "string indices must be integers, not 'str'"
    case Array(_) => "list indices must be integers or slices, not str"
  }

  /**
   * The nested lookup: the value the keys lead to, None at the first key missing from
   * its dictionary, and a TypeError when a key is applied to something else.
   */
  function Lookup(dct: Json, keys: seq<string>): Result<Option<Json>>
    decreases |keys|
  {
    if |keys| == 0 then Ok(Some(dct))
    else match dct
      case Object(m) => if keys[0] in m then Lookup(m[keys[0]], keys[1..]) else Ok(None)
      case _ => Err(TypeError(NotSubscriptable(dct)))
  }

  /** What `safeget` returns: Python's None stands for a missing key as well as for a JSON null. */
  function SafeGetValue(dct: Json, keys: seq<string>): Result<Json> {
    var found :- Lookup(dct, keys);
    Ok(if found.Some? then found.value else Null)
  }

  /** One step of the walk, on a suffix of the keys. */
  lemma LookupStep(cur: Json, keys: seq<string>, i: nat)
    requires i < |keys|
    ensures cur.Object? && keys[i] in cur.fields ==> Lookup(cur, keys[i..]) == Lookup(cur.fields[keys[i]], keys[i + 1..])
    ensures cur.Object? && keys[i] !in cur.fields ==> Lookup(cur, keys[i..]) == Ok(None)
    ensures !cur.Object? ==> Lookup(cur, keys[i..]) == Err(TypeError(NotSubscriptable(cur)))
  {
    assert keys[i..][0] == keys[i] && keys[i..][1..] == keys[i + 1..];
  }

  /** `safeget`: one key at a time; the first KeyError ends the walk with None. */
  method SafeGet(dct: Json, keys: seq<string>) returns (r: Result<Json>)
    ensures r == SafeGetValue(dct, keys)
  {
    var cur := dct;
    var i := 0;
    while i < |keys|
      invariant 0 <= i <= |keys|
      invariant Lookup(dct, keys) == Lookup(cur, keys[i..])
    {
      LookupStep(cur, keys, i);
      match cur {
        case Object(m) =>
          if keys[i] !in m {
            return Ok(Null);
          }
          cur := m[keys[i]];
        case _ =>
          return Err(TypeError(NotSubscriptable(cur)));
      }
      i := i + 1;
    }
    assert keys[i..] == [];
    r := Ok(cur);
  }

  /** No keys: the value itself. */
  lemma LookupNoKeys(dct: Json)
    ensures SafeGetValue(dct, []) == Ok(dct)
  {
  }

  /** One key on a dictionary: its entry, or None when it is missing. */
  lemma LookupOneKey(m: map<string, Json>, key: string)
    ensures SafeGetValue(Object(m), [key]) == Ok(if key in m then m[key] else Null)
  {
    if key in m {
      assert Lookup(m[key], [key][1..]) == Ok(Some(m[key]));
    }
  }

  /** Walking `a + b` is walking `a`, then walking `b` from where `a` led. */
  lemma {:induction false} LookupAppend(dct: Json, a: seq<string>, b: seq<string>)
    ensures Lookup(dct, a + b) ==
      match Lookup(dct, a)
      case Err(e) => Err(e)
      case Ok(None) => Ok(None)
      case Ok(Some(v)) => Lookup(v, b)
    decreases |a|
  {
    if |a| == 0 {
      assert a + b == b;
    } else {
      assert (a + b)[0] == a[0] && (a + b)[1..] == a[1..] + b;
      if dct.Object? && a[0] in dct.fields {
        LookupAppend(dct.fields[a[0]], a[1..], b);
      }
    }
  }

  /** A missing key ends the walk: keys after it are never looked at. */
  lemma MissingKeyStops(dct: Json, a: seq<string>, b: seq<string>)
    requires Lookup(dct, a) == Ok(None)
    ensures SafeGetValue(dct, a + b) == Ok(Null)
  {
    LookupAppend(dct, a, b);
  }

  /** The `_subkey` argument: None, a single key, or a list of keys. */
  datatype Subkey = NoSubkey | Key(key: string) | Keys(keys: seq<string>)

  /** Lines 108-113: the part of the parsed defaults file that holds the unit strings. */
  function SelectSubkey(defaults: Json, subkey: Subkey): (r: Result<Json>)
    ensures subkey.NoSubkey? ==> r == Ok(defaults)
    ensures subkey.Keys? ==> r == SafeGetValue(defaults, subkey.keys)
  {
    match subkey
    case NoSubkey => Ok(defaults)
    case Key(k) =>
      if !defaults.Object? then Err(TypeError(NotSubscriptable(defaults)))
      else if k in defaults.fields then Ok(defaults.fields[k])
      else Err(KeyError(k))
    case Keys(ks) => SafeGetValue(defaults, ks)
  }

  /**
   * A single key and a one-key list agree on every key present; on a missing key the
   * string form raises KeyError where the list form gives None.
   */
  lemma KeyAgainstKeys(defaults: Json, k: string)
    ensures defaults.Object? && k in defaults.fields ==>
      SelectSubkey(defaults, Key(k)) == SelectSubkey(defaults, Keys([k]))
    ensures defaults.Object? && k !in defaults.fields ==>
      SelectSubkey(defaults, Key(k)) == Err(KeyError(k)) && SelectSubkey(defaults, Keys([k])) == Ok(Null)
    ensures !defaults.Object? ==>
      SelectSubkey(defaults, Key(k)) == SelectSubkey(defaults, Keys([k])) &&
      SelectSubkey(defaults, Key(k)).Err?
  {
    if defaults.Object? {
      LookupOneKey(defaults.fields, k);
    }
  }

  /** Without a units dictionary the packaged file is read with the subkey `['units']`. */
  const DefaultUnitsSubkey := Keys(["units"])

  /** The packaged defaults file gives its `units` entry, or None when it has none. */
  lemma DefaultUnits(m: map<string, Json>)
    ensures SelectSubkey(Object(m), DefaultUnitsSubkey) == Ok(if "units" in m then m["units"] else Null)
  {
    LookupOneKey(m, "units");
  }
}
