/**
 * JSON values as the request body carries them, and the view Jackson's tree
 * model (`JsonNode`) gives of them.
 *
 * An object is kept as the list of its members in text order, duplicates
 * included. Jackson's `ObjectNode` stores them in a `LinkedHashMap`: a key
 * keeps the position of its first occurrence and the value of its last one.
 * `Tree` builds that view; `LastValue` is the independent reference ("the
 * last occurrence of a key wins") and `TreeGet` proves the two agree.
 */
module JsonTree {
  import opened Wrappers

  datatype Json =
    | JNull
    | JBool(b: bool)
    | JNum(text: string)   // a number, by the text Jackson renders for it
    | JStr(s: string)
    | JArr(items: seq<Json>)
    | JObj(members: seq<(string, Json)>)

  type Members = seq<(string, Json)>

  /** The set of keys that occur in a member list. */
  function Keys(ms: Members): set<string>
  {
    set i | 0 <= i < |ms| :: ms[i].0
  }

  /** Reference semantics of a repeated key: the value of its last occurrence. */
  function LastValue(ms: Members, k: string): (r: Option<Json>)
    ensures r.None? <==> k !in Keys(ms)
    ensures r.Some? ==> exists i :: 0 <= i < |ms| && ms[i] == (k, r.value)
  {
    if ms == [] then None
    else if ms[|ms| - 1].0 == k then
      assert ms[|ms| - 1] == (k, ms[|ms| - 1].1);
      Some(ms[|ms| - 1].1)
    else
      var r := LastValue(ms[..|ms| - 1], k);
      assert Keys(ms) == Keys(ms[..|ms| - 1]) + {ms[|ms| - 1].0} by {
        forall x | x in Keys(ms) ensures x in Keys(ms[..|ms| - 1]) + {ms[|ms| - 1].0} {
          var i :| 0 <= i < |ms| && ms[i].0 == x;
          if i < |ms| - 1 { assert ms[..|ms| - 1][i].0 == x; }
        }
      }
      if r.Some? then
        var i :| 0 <= i < |ms| - 1 && ms[..|ms| - 1][i] == (k, r.value);
        assert ms[i] == (k, r.value);
        r
      else r
  }

  /** `LinkedHashMap.put`: replace the value of a present key in place, or append a new key. */
  function Put(fields: Members, k: string, v: Json): (r: Members)
  {
    if fields == [] then [(k, v)]
    else if fields[0].0 == k then [(k, v)] + fields[1..]
    else [fields[0]] + Put(fields[1..], k, v)
  }

  /** `map.get` on the stored fields: the first (in a tree, the only) entry with key k. */
  function Get(fields: Members, k: string): (r: Option<Json>)
    ensures r.Some? <==> k in Keys(fields)
  {
    if fields == [] then None
    else
      KeysCons(fields);
      if fields[0].0 == k then Some(fields[0].1) else Get(fields[1..], k)
  }

  /** The fields of the `ObjectNode` that `readTree` builds from an object's members. */
  function Tree(ms: Members): Members
  {
    if ms == [] then [] else Put(Tree(ms[..|ms| - 1]), ms[|ms| - 1].0, ms[|ms| - 1].1)
  }

  /** The keys of stored fields, in iteration order (`fieldNames()`). */
  function FieldNames(fields: Members): (r: seq<string>)
    ensures |r| == |fields|
    ensures forall i :: 0 <= i < |fields| ==> r[i] == fields[i].0
  {
    if fields == [] then [] else [fields[0].0] + FieldNames(fields[1..])
  }

  /** The values of stored fields, in iteration order (`elements()`). */
  function FieldValues(fields: Members): (r: seq<Json>)
    ensures |r| == |fields|
    ensures forall i :: 0 <= i < |fields| ==> r[i] == fields[i].1
  {
    if fields == [] then [] else [fields[0].1] + FieldValues(fields[1..])
  }

  lemma {:induction false} PutGet(fields: Members, k: string, v: Json, q: string)
    ensures Get(Put(fields, k, v), q) == if q == k then Some(v) else Get(fields, q)
  {
    if fields != [] && fields[0].0 != k {
      PutGet(fields[1..], k, v, q);
    }
  }

  /** The keys of a non-empty member list: its first key and the keys of the rest. */
  lemma KeysCons(ms: Members)
    requires ms != []
    ensures Keys(ms) == {ms[0].0} + Keys(ms[1..])
  {
    forall x | x in Keys(ms) ensures x in {ms[0].0} + Keys(ms[1..]) {
      var i :| 0 <= i < |ms| && ms[i].0 == x;
      if i > 0 { assert ms[1..][i - 1].0 == x; }
    }
    forall x | x in Keys(ms[1..]) ensures x in Keys(ms) {
      var i :| 0 <= i < |ms| - 1 && ms[1..][i].0 == x;
      assert ms[i + 1].0 == x;
    }
  }

  lemma {:induction false} PutKeys(fields: Members, k: string, v: Json)
    ensures Keys(Put(fields, k, v)) == Keys(fields) + {k}
  {
    var r := Put(fields, k, v);
    if fields == [] {
      assert r[0].0 == k;
    } else if fields[0].0 == k {
      KeysCons(fields);
      KeysCons(r);
      assert r[1..] == fields[1..];
    } else {
      PutKeys(fields[1..], k, v);
      KeysCons(fields);
      KeysCons(r);
      assert r[0] == fields[0] && r[1..] == Put(fields[1..], k, v);
    }
  }

  /** Reading an object into a tree keeps, for every key, the value of its last occurrence. */
  lemma {:induction false} TreeGet(ms: Members, k: string)
    ensures Get(Tree(ms), k) == LastValue(ms, k)
  {
    if ms != [] {
      TreeGet(ms[..|ms| - 1], k);
      PutGet(Tree(ms[..|ms| - 1]), ms[|ms| - 1].0, ms[|ms| - 1].1, k);
    }
  }

  /** The tree has exactly the keys that occur in the member list. */
  lemma {:induction false} TreeKeys(ms: Members)
    ensures Keys(Tree(ms)) == Keys(ms)
  {
    if ms != [] {
      var init := ms[..|ms| - 1];
      TreeKeys(init);
      PutKeys(Tree(init), ms[|ms| - 1].0, ms[|ms| - 1].1);
      forall x | x in Keys(ms) ensures x in Keys(init) + {ms[|ms| - 1].0} {
        var i :| 0 <= i < |ms| && ms[i].0 == x;
        if i < |ms| - 1 { assert init[i].0 == x; }
      }
      forall x | x in Keys(init) ensures x in Keys(ms) {
        var i :| 0 <= i < |init| && init[i].0 == x;
        assert ms[i].0 == x;
      }
    }
  }

  /** One more member: its key joins the keys, and it is now that key's last occurrence. */
  lemma AppendMember(ms: Members, k: string, v: Json)
    ensures Keys(ms + [(k, v)]) == Keys(ms) + {k}
    ensures forall q :: LastValue(ms + [(k, v)], q) == if q == k then Some(v) else LastValue(ms, q)
  {
    var a := ms + [(k, v)];
    assert a[..|a| - 1] == ms;
    forall x | x in Keys(a) ensures x in Keys(ms) + {k} {
      var i :| 0 <= i < |a| && a[i].0 == x;
      if i < |ms| { assert ms[i].0 == x; }
    }
    forall x | x in Keys(ms) ensures x in Keys(a) {
      var i :| 0 <= i < |ms| && ms[i].0 == x;
      assert a[i].0 == x;
    }
    assert a[|ms|].0 == k;
  }

  // ---- the JsonNode accessors used by the decoder ----

  /** The stored fields of a node: an object's tree; no fields for any other node. */
  function NodeFields(node: Json): Members
  {
    if node.JObj? then Tree(node.members) else []
  }

  /** `node.get(k)`, `None` for Java's null. `node.has(k)` is `GetField(node, k).Some?`. */
  function GetField(node: Json, k: string): Option<Json>
  {
    Get(NodeFields(node), k)
  }

  /** Reference view of a member: the value of the last occurrence of `k` in an object. */
  function Member(node: Json, k: string): Option<Json>
  {
    if node.JObj? then LastValue(node.members, k) else None
  }

  /** The names of the properties present in a node. */
  function MemberNames(node: Json): set<string>
  {
    if node.JObj? then Keys(node.members) else {}
  }

  lemma GetFieldIsMember(node: Json, k: string)
    ensures GetField(node, k) == Member(node, k)
  {
    if node.JObj? { TreeGet(node.members, k); }
  }

  /** `asText()`: the text of a scalar, the empty string for a container node. */
  function AsText(v: Json): string
  {
    match v
    case JNull => "null"
    case JBool(b) => if b then "true" else "false"
    case JNum(t) => t
    case JStr(s) => s
    case JArr(_) => ""
    case JObj(_) => ""
  }

  /** `textValue()`: the string of a text node, null for every other node. */
  function TextValue(v: Json): (r: Option<string>)
    ensures r.Some? <==> v.JStr?
  {
    if v.JStr? then Some(v.s) else None
  }

  /** Iterating over a node: an array's items, an object's values, nothing for a scalar. */
  function Elements(v: Json): seq<Json>
  {
    match v
    case JArr(items) => items
    case JObj(ms) => FieldValues(Tree(ms))
    case _ => []
  }
}
