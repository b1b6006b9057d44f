/** The mock client's objects: nested maps that are changed in place. */
module MockObjects {
  import opened Text
  import opened Json
  import opened JsonMergePatch
  import opened JsonPointer

  /** A map entry: an object held by reference, or any other JSON value. */
  datatype Slot = Leaf(value: Json) | Child(node: Node)

  class Node {
    var fields: map<string, Slot>
    ghost var Repr: set<Node>

    /** The maps form a tree: no map is reachable twice. */
    ghost predicate Valid()
      reads this, Repr
      decreases Repr
      ensures Valid() ==> this in Repr
    {
      && this in Repr
      && (forall k | k in fields && fields[k].Leaf? :: !fields[k].value.Obj?)
      && (forall k | k in fields && fields[k].Child? ::
            && fields[k].node in Repr
            && fields[k].node.Repr <= Repr - {this}
            && fields[k].node.Valid())
      && (forall k, l | k in fields && l in fields && k != l && fields[k].Child? && fields[l].Child? ::
            fields[k].node.Repr !! fields[l].node.Repr)
    }

    ghost function Value(): Fields
      requires Valid()
      reads this, Repr
      decreases Repr
    {
      map k | k in fields :: if fields[k].Leaf? then fields[k].value else Obj(fields[k].node.Value())
    }

    constructor ()
      ensures Valid() && fresh(Repr) && Value() == map[] && fields == map[] && Repr == {this}
    {
      fields := map[];
      Repr := {this};
    }

    method Delete(key: string)
      requires Valid()
      modifies this
      ensures Valid() && Repr == old(Repr) && Value() == old(Value()) - {key}
    {
      fields := fields - {key};
    }

    method PutLeaf(key: string, value: Json)
      requires Valid() && !value.Obj?
      modifies this
      ensures Valid() && Repr == old(Repr) && Value() == old(Value())[key := value]
    {
      label before:
      fields := fields[key := Leaf(value)];
      ChildrenKept@before();
    }

    method PutChild(key: string, node: Node)
      requires Valid() && node.Valid() && node.Repr !! Repr
      modifies this
      ensures Valid() && Repr == old(Repr) + node.Repr && fields == old(fields)[key := Child(node)]
      ensures Value() == old(Value())[key := Obj(old(node.Value()))]
    {
      label before:
      fields := fields[key := Child(node)];
      Repr := Repr + node.Repr;
      ChildrenKept@before();
      assert node.Valid() && node.Value() == old(node.Value());
    }

    /** deepCopyMap, into a new map. */
    static method CopyOf(src: Fields) returns (node: Node)
      ensures node.Valid() && fresh(node.Repr) && node.Value() == src
      decreases Obj(src)
    {
      node := new Node();
      var todo := src.Keys;
      while todo != {}
        invariant todo <= src.Keys
        invariant node.Valid() && fresh(node.Repr)
        invariant node.Value() == Restricted(src, src.Keys - todo)
        decreases todo
      {
        var key :| key in todo;
        RestrictedStep(src, src.Keys - todo, key);
        assert src.Keys - todo + {key} == src.Keys - (todo - {key});
        todo := todo - {key};
        if src[key].Obj? {
          var child := CopyOf(src[key].fields);
          node.PutChild(key, child);
        } else {
          node.PutLeaf(key, src[key]);
        }
      }
      assert Restricted(src, src.Keys - todo) == src;
    }

    /** mergeMaps: `src` merged into this map in place; Go visits the keys in any order. */
    method Merge(src: Fields)
      requires Valid()
      modifies Repr
      ensures Valid() && fresh(Repr - old(Repr))
      ensures Value() == Merged(old(Value()), src)
      decreases Obj(src), 0
    {
      ghost var start := Value();
      var todo := src.Keys;
      while todo != {}
        invariant todo <= src.Keys
        invariant Valid() && fresh(Repr - old(Repr))
        invariant Value() == MergedOn(start, src, src.Keys - todo)
        decreases todo
      {
        var key :| key in todo;
        MergedOnStep(start, src, src.Keys - todo, key);
        assert src.Keys - todo + {key} == src.Keys - (todo - {key});
        todo := todo - {key};
        MergeEntry(key, src[key]);
      }
      assert MergedOn(start, src, src.Keys - todo) == Merged(start, src);
    }

    /** One iteration of the merge loop. */
    method MergeEntry(key: string, value: Json)
      requires Valid()
      modifies Repr
      ensures Valid() && fresh(Repr - old(Repr))
      ensures Value() == WithEntry(old(Value()), key, value)
      decreases value, 2
    {
      if value.Null? {
        Delete(key);
      } else if value.Obj? && HasChild(key) {
        MergeChild(key, value.fields);
      } else {
        Put(key, value);
      }
    }

    method MergeChild(key: string, src: Fields)
      requires Valid() && HasChild(key)
      modifies Repr
      ensures Valid() && fresh(Repr - old(Repr))
      ensures key in old(Value()) && old(Value())[key].Obj?
      ensures Value() == old(Value())[key := Obj(Merged(old(Value())[key].fields, src))]
      decreases Obj(src), 1
    {
      var child := fields[key].node;
      label before:
      ghost var after := Merged(child.Value(), src);
      child.Merge(src);
      assert child.Value() == after;
      SiblingsKept@before(key);
      Readopt(key);
    }

    method Put(key: string, value: Json)
      requires Valid()
      modifies this
      ensures Valid() && fresh(Repr - old(Repr)) && Value() == old(Value())[key := value]
    {
      if value.Obj? {
        var copy := CopyOf(value.fields);
        PutChild(key, copy);
      } else {
        PutLeaf(key, value);
      }
    }

    /** setNestedField; the descent along the path is a recursion here. */
    method SetNested(path: seq<string>, value: Json) returns (ok: bool)
      requires Valid()
      modifies Repr
      ensures Valid() && fresh(Repr - old(Repr))
      ensures ok == (path != [])
      ensures Value() == if ok then WithPath(old(Value()), path, value) else old(Value())
      decreases |path|, 0
    {
      ok := path != [];
      if |path| == 1 {
        Put(path[0], value);
      } else if ok {
        var key := path[0];
        if HasChild(key) {
          SetInChild(key, path[1..], value);
        } else {
          SetInNew(key, path[1..], value);
        }
      }
    }

    /** An intermediate that is missing, or no object, becomes an empty object first. */
    method SetInNew(key: string, path: seq<string>, value: Json)
      requires Valid() && path != []
      modifies Repr
      ensures Valid() && fresh(Repr - old(Repr))
      ensures Value() == old(Value())[key := Obj(WithPath(map[], path, value))]
      decreases |path|, 1
    {
      var node := new Node();
      var _ := node.SetNested(path, value);
      PutChild(key, node);
    }

    /** removeNestedField, as a recursion. */
    method RemoveNested(path: seq<string>) returns (ok: bool)
      requires Valid()
      modifies Repr
      ensures Valid() && fresh(Repr - old(Repr))
      ensures ok == (path != [])
      ensures Value() == if ok then WithoutPath(old(Value()), path) else old(Value())
      decreases |path|, 0
    {
      ok := path != [];
      if |path| == 1 {
        Delete(path[0]);
      } else if ok {
        var key := path[0];
        if HasChild(key) {
          RemoveInChild(key, path[1..]);
        }
      }
    }

    method SetInChild(key: string, path: seq<string>, value: Json)
      requires Valid() && HasChild(key) && path != []
      modifies Repr
      ensures Valid() && fresh(Repr - old(Repr))
      ensures key in old(Value()) && old(Value())[key].Obj?
      ensures Value() == old(Value())[key := Obj(WithPath(old(Value())[key].fields, path, value))]
      decreases |path|, 1
    {
      ghost var after := WithPath(fields[key].node.Value(), path, value);
      label before:
      var child := fields[key].node;
      var _ := child.SetNested(path, value);
      assert child.Value() == after;
      SiblingsKept@before(key);
      Readopt(key);
    }

    method RemoveInChild(key: string, path: seq<string>)
      requires Valid() && HasChild(key) && path != []
      modifies Repr
      ensures Valid() && fresh(Repr - old(Repr))
      ensures key in old(Value()) && old(Value())[key].Obj?
      ensures Value() == old(Value())[key := Obj(WithoutPath(old(Value())[key].fields, path))]
      decreases |path|, 1
    {
      label before:
      var _ := fields[key].node.RemoveNested(path);
      SiblingsKept@before(key);
      Readopt(key);
    }

    /** applyJSONPatchOp; operations other than add, replace and remove are ignored. */
    method ApplyPatchOp(op: string, path: string, value: Json) returns (ok: bool)
      requires Valid()
      modifies Repr
      ensures Valid() && fresh(Repr - old(Repr)) && ok
      ensures Value() == if op == "replace" || op == "add" then WithPath(old(Value()), Parse(path), value)
                         else if op == "remove" then WithoutPath(old(Value()), Parse(path))
                         else old(Value())
    {
      var segments := ParsePath(path);
      ok := true;
      if op == "replace" || op == "add" {
        ok := SetNested(segments, value);
      } else if op == "remove" {
        ok := RemoveNested(segments);
      }
    }

    predicate HasChild(key: string)
      reads this
    {
      key in fields && fields[key].Child?
    }

    /** The maps below this one that are not behind `key`. */
    ghost function Beside(key: string): set<Node>
      requires HasChild(key)
      reads this, fields[key].node
    {
      Repr - fields[key].node.Repr - {this}
    }

    /** A change of this map's own entries leaves the maps below as they are. */
    twostate lemma ChildrenKept()
      requires old(Valid()) && forall n | n in old(Repr) && n != this :: unchanged(n)
      ensures forall k | k in old(fields) && old(fields)[k].Child? ::
                var node := old(fields)[k].node;
                node.Valid() && node.Repr == old(node.Repr) && node.Value() == old(node.Value())
    {
    }

    /** An in-place change behind `key` leaves the other entries alone. */
    twostate lemma SiblingsKept(key: string)
      requires old(Valid() && HasChild(key)) && unchanged(this)
      requires forall n | n in old(Beside(key)) :: unchanged(n)
      ensures forall k | k in fields && k != key && fields[k].Child? ::
                && fields[k].node.Repr <= old(Beside(key)) && fields[k].node.Valid()
                && fields[k].node.Value() == old(fields[k].node.Value())
      ensures forall k, l | k in fields && l in fields && k != l && k != key && l != key
                            && fields[k].Child? && fields[l].Child? ::
                fields[k].node.Repr !! fields[l].node.Repr
    {
      forall k | k in fields && k != key && fields[k].Child?
        ensures fields[k].node.Repr <= old(Beside(key)) && fields[k].node.Valid()
        ensures fields[k].node.Value() == old(fields[k].node.Value())
      {
        var node := fields[k].node;
        assert old(node.Repr !! fields[key].node.Repr && node.Repr <= Beside(key) && node in node.Repr);
        assert unchanged(node);
      }
    }

    /** Ghost bookkeeping: the map behind `key` may have gained new maps. */
    ghost method Readopt(key: string)
      requires this in Repr && HasChild(key)
      requires forall k | k in fields && fields[k].Leaf? :: !fields[k].value.Obj?
      requires this !in fields[key].node.Repr
      requires forall k | k in fields && fields[k].Child? ::
                 fields[k].node.Valid() && (k != key ==> fields[k].node.Repr <= Beside(key))
      requires forall k, l | k in fields && l in fields && k != l && k != key && l != key
                             && fields[k].Child? && fields[l].Child? ::
                 fields[k].node.Repr !! fields[l].node.Repr
      modifies this`Repr
      ensures Valid() && Repr == old(Repr + fields[key].node.Repr)
      ensures Value() == old(map k | k in fields :: if fields[k].Leaf? then fields[k].value
          else Obj(fields[k].node.Value()))
    {
      assert forall k | k in fields && fields[k].Child? :: this !in fields[k].node.Repr;
      Repr := Repr + fields[key].node.Repr;
      assert forall k | k in fields && fields[k].Child? ::
          fields[k].node.Valid() && fields[k].node.Value() == old(fields[k].node.Value());
    }
  }

  /** What one patch entry does to the target. */
  ghost function WithEntry(dst: Fields, key: string, value: Json): Fields {
    if value.Null? then dst - {key}
    else if value.Obj? && key in dst && dst[key].Obj? then dst[key := Obj(Merged(dst[key].fields, value.fields))]
    else dst[key := value]
  }

  ghost function Restricted(src: Fields, keys: set<string>): Fields {
    map k | k in src && k in keys :: src[k]
  }

  lemma RestrictedStep(src: Fields, keys: set<string>, key: string)
    requires key in src
    ensures Restricted(src, keys + {key}) == Restricted(src, keys)[key := src[key]]
  {
  }

  /** The merge after the keys in `done` were processed. */
  ghost function MergedOn(start: Fields, src: Fields, done: set<string>): Fields
    requires done <= src.Keys
  {
    map k | k in start.Keys + done && !(k in done && src[k].Null?) ::
      if k in done then Merged(start, src)[k] else start[k]
  }

  lemma MergedOnStep(start: Fields, src: Fields, done: set<string>, key: string)
    requires done <= src.Keys && key in src && key !in done
    ensures MergedOn(start, src, done + {key}) == WithEntry(MergedOn(start, src, done), key, src[key])
  {
  }
}
