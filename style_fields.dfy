/** The style dictionaries and field masks of updateTextStyle and
    updateParagraphStyle. Each tool tests its optional arguments in a fixed
    order; a given argument puts its value under its key and appends the key
    to `fields`, which is sent joined with commas. Keys are a small
    enumeration per request kind: `name` gives the JSON key and `value` the
    value sent, None when the argument is not sent. */
module StyleFields {
  import opened SlidesApi
  import opened Text

  /** `[k]` when `c` holds, else nothing. */
  function Opt<K>(c: bool, k: K): seq<K>
  {
    if c then [k] else []
  }

  /** The keys of `order` that have a value, keeping their order. */
  function Selected<K>(order: seq<K>, value: K -> Option<Value>): seq<K>
  {
    if |order| == 0 then []
    else
      var last := order[|order| - 1];
      Selected(order[..|order| - 1], value) + Opt(value(last).Some?, last)
  }

  /** `a` is `b` with some entries left out. */
  predicate Subsequence<K(==)>(a: seq<K>, b: seq<K>)
    decreases |b|
  {
    if |a| == 0 then true
    else if |b| == 0 then false
    else (a[|a| - 1] == b[|b| - 1] && Subsequence(a[..|a| - 1], b[..|b| - 1])) || Subsequence(a, b[..|b| - 1])
  }

  /** The JSON keys of a list of keys. */
  function Names<K>(ks: seq<K>, name: K -> string): (r: seq<string>)
    ensures |r| == |ks| && forall i :: 0 <= i < |ks| ==> r[i] == name(ks[i])
  {
    if |ks| == 0 then [] else Names(ks[..|ks| - 1], name) + [name(ks[|ks| - 1])]
  }

  /** `style` and `fields` are what the tool has built once the keys `keys`
      have been set: the names in order, and each name mapped to its value. */
  predicate Built<K(==)>(style: StyleMap, fields: seq<string>, keys: seq<K>, name: K -> string, value: K -> Option<Value>)
  {
    fields == Names(keys, name)
    && (forall s :: s in style ==> s in fields)
    && forall k :: k in keys ==> name(k) in style && Some(style[name(k)]) == value(k)
  }

  /** A key is in the mask exactly when it is one of the keys and has a value. */
  lemma {:induction false} SelectedMember<K>(order: seq<K>, value: K -> Option<Value>, k: K)
    ensures k in Selected(order, value) <==> k in order && value(k).Some?
  {
    if |order| > 0 {
      SelectedMember(order[..|order| - 1], value, k);
      assert order == order[..|order| - 1] + [order[|order| - 1]];
    }
  }

  /** The mask keeps the fixed order. */
  lemma {:induction false} SelectedSubsequence<K>(order: seq<K>, value: K -> Option<Value>)
    ensures Subsequence(Selected(order, value), order)
  {
    if |order| > 0 {
      var init := order[..|order| - 1];
      SelectedSubsequence(init, value);
      var rest := Selected(init, value);
      if value(order[|order| - 1]).Some? {
        var r := rest + [order[|order| - 1]];
        assert r[..|r| - 1] == rest;
      } else {
        assert Selected(order, value) == rest;
      }
    }
  }

  /** With no value anywhere the mask is empty. */
  lemma {:induction false} NothingSelected<K>(order: seq<K>, value: K -> Option<Value>)
    requires forall k :: value(k).None?
    ensures Selected(order, value) == []
  {
    if |order| > 0 {
      NothingSelected(order[..|order| - 1], value);
    }
  }

  /** A name is in the list exactly when one of the keys has it. */
  lemma NamesMember<K>(ks: seq<K>, name: K -> string, x: string)
    ensures x in Names(ks, name) <==> exists k :: k in ks && name(k) == x
  {
    if x in Names(ks, name) {
      var i :| 0 <= i < |ks| && Names(ks, name)[i] == x;
      assert ks[i] in ks;
    }
  }

  /** Splitting the joined mask at its commas gives back the key names, in order. */
  lemma MaskRoundTrip<K>(ks: seq<K>, name: K -> string)
    requires forall k :: CommaFree(name(k))
    requires |ks| > 0
    ensures Split(Join(Names(ks, name))) == Names(ks, name)
  {
    SplitJoin(Names(ks, name));
  }

  lemma NamesAppend<K>(ks: seq<K>, k: K, name: K -> string)
    ensures Names(ks + [k], name) == Names(ks, name) + [name(k)]
  {
    assert (ks + [k])[..|ks|] == ks;
  }

  /** Setting one more key, whose name is not yet in the style, keeps `Built`. */
  lemma BuiltStep<K>(style: StyleMap, fields: seq<string>, keys: seq<K>, name: K -> string,
                         value: K -> Option<Value>, k: K)
    requires Built(style, fields, keys, name, value)
    requires value(k).Some?
    requires forall j :: j in keys ==> name(j) != name(k)
    ensures Built(style[name(k) := value(k).value], fields + [name(k)], keys + [k], name, value)
  {
    NamesAppend(keys, k, name);
    var style' := style[name(k) := value(k).value];
    forall j | j in keys + [k] ensures Some(style'[name(j)]) == value(j) {
      if j != k {
        assert j in keys;
      }
    }
  }

  /** The keys of `order` have pairwise different names. */
  predicate NamesApart<K>(order: seq<K>, name: K -> string)
  {
    forall i, j :: 0 <= i < j < |order| ==> name(order[i]) != name(order[j])
  }

  /** One `if <argument> is not None:` block of a tool: store the value under
      the key `order[n]` and append the key, or leave both as they are. `m` is
      n + 1, passed so that consecutive steps name the same prefix. */
  method AddIfGiven<K(==)>(style: StyleMap, fields: seq<string>, name: K -> string, value: K -> Option<Value>,
                           order: seq<K>, n: nat, ghost m: nat)
    returns (style': StyleMap, fields': seq<string>)
    requires n < |order| && m == n + 1 && NamesApart(order, name)
    requires Built(style, fields, Selected(order[..n], value), name, value)
    ensures Built(style', fields', Selected(order[..m], value), name, value)
  {
    ghost var keys := Selected(order[..n], value);
    var k := order[n];
    assert order[..n + 1][..n] == order[..n];
    if value(k).Some? {
      assert forall j :: j in keys ==> name(j) != name(k) by {
        forall j | j in keys ensures name(j) != name(k) {
          SelectedMember(order[..n], value, j);
          var i :| 0 <= i < n && order[i] == j;
        }
      }
      BuiltStep(style, fields, keys, name, value, k);
      style' := style[name(k) := value(k).value];
      fields' := fields + [name(k)];
    } else {
      style', fields' := style, fields;
    }
  }
}
