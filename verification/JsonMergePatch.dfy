/** JSON values and lookups by key path. */
module Json {
  import opened Text

  datatype Json =
    | Null
    | Bool(b: bool)
    | Number(n: int)
    | Str(s: string)
    | Arr(items: seq<Json>)
    | Obj(fields: map<string, Json>)

  type Fields = map<string, Json>

  /** The value at a key path; None when a key is missing or an intermediate is no object. */
  function At(j: Json, path: seq<string>): Option<Json>
    decreases |path|
  {
    if path == [] then Some(j)
    else if j.Obj? && path[0] in j.fields then At(j.fields[path[0]], path[1..])
    else None
  }

  /** No object reachable without passing an array holds a null. */
  ghost predicate NullFree(j: Json) {
    j.Obj? ==> forall k | k in j.fields :: !j.fields[k].Null? && NullFree(j.fields[k])
  }
}

/** JSON Merge Patch: the standard's definition, the mock client's, and patches computed by comparing two objects. */
module JsonMergePatch {
  import opened Text
  import opened Json

  /** MergePatch of section 2 of RFC 7396; a missing target behaves like any non-object. */
  function MergePatch(target: Json, patch: Json): Json
    decreases patch
  {
    if !patch.Obj? then patch
    else
      var base := if target.Obj? then target.fields else map[];
      Obj(map k | k in base.Keys + patch.fields.Keys && !(k in patch.fields && patch.fields[k].Null?) ::
          if k in patch.fields then MergePatch(if k in base then base[k] else Null, patch.fields[k])
          else base[k])
  }

  /** What the mock client's merge leaves in `dst`: an object placed over anything but an object is copied as it is. */
  function Merged(dst: Fields, src: Fields): Fields
    decreases Obj(src)
  {
    map k | k in dst.Keys + src.Keys && !(k in src && src[k].Null?) ::
      if k !in src then dst[k]
      else if src[k].Obj? && k in dst && dst[k].Obj? then Obj(Merged(dst[k].fields, src[k].fields))
      else src[k]
  }

  /** Wherever the patch puts an object over a missing or non-object value, that object holds no null. */
  ghost predicate CleanOver(dst: Fields, src: Fields)
    decreases Obj(src)
  {
    forall k | k in src && src[k].Obj? ::
      if k in dst && dst[k].Obj? then CleanOver(dst[k].fields, src[k].fields) else NullFree(src[k])
  }

  lemma {:induction false} CopyIsMergeIff(target: Json, patch: Json)
    requires !target.Obj?
    ensures MergePatch(target, patch) == patch <==> NullFree(patch)
    decreases patch
  {
    if patch.Obj? {
      var merged := MergePatch(target, patch);
      forall k | k in patch.fields {
        CopyIsMergeIff(Null, patch.fields[k]);
      }
      if merged == patch {
        forall k | k in patch.fields
          ensures !patch.fields[k].Null? && NullFree(patch.fields[k])
        {
          assert k in merged.fields;
        }
      }
    }
  }

  /** The mock's merge is the standard's exactly when the patch is clean over the object. */
  lemma {:induction false} MergedIsMergePatchIff(dst: Fields, src: Fields)
    ensures Obj(Merged(dst, src)) == MergePatch(Obj(dst), Obj(src)) <==> CleanOver(dst, src)
    decreases Obj(src)
  {
    var mock, std := Merged(dst, src), MergePatch(Obj(dst), Obj(src)).fields;
    forall k | k in src && !src[k].Null?
      ensures mock[k] == std[k] <==>
              (src[k].Obj? ==> if k in dst && dst[k].Obj? then CleanOver(dst[k].fields, src[k].fields)
                  else NullFree(src[k]))
    {
      var below := if k in dst then dst[k] else Null;
      assert std[k] == MergePatch(below, src[k]);
      if src[k].Obj? {
        if below.Obj? {
          MergedIsMergePatchIff(below.fields, src[k].fields);
        } else {
          CopyIsMergeIff(below, src[k]);
        }
      }
    }
    if CleanOver(dst, src) {
      assert mock == std;
    } else {
      var k :| k in src && src[k].Obj? &&
               !(if k in dst && dst[k].Obj? then CleanOver(dst[k].fields, src[k].fields) else NullFree(src[k]));
      assert mock[k] != std[k];
    }
  }

  lemma {:induction false} SelfMergeIff(src: Fields)
    ensures Merged(src, src) == src <==> NullFree(Obj(src))
    decreases Obj(src)
  {
    forall k | k in src && src[k].Obj? {
      SelfMergeIff(src[k].fields);
    }
    if NullFree(Obj(src)) {
      assert Merged(src, src) == src;
    } else if Merged(src, src) == src {
      forall k | k in src
        ensures !src[k].Null? && NullFree(src[k])
      {
        assert k in Merged(src, src) && Merged(src, src)[k] == src[k];
      }
    }
  }

  /** Merging the same patch twice equals merging it once, under the same condition and no weaker one. */
  lemma {:induction false} MergedIdempotentIff(dst: Fields, src: Fields)
    ensures Merged(Merged(dst, src), src) == Merged(dst, src) <==> CleanOver(dst, src)
    decreases Obj(src)
  {
    var once := Merged(dst, src);
    var twice := Merged(once, src);
    forall k | k in src && src[k].Obj?
      ensures twice[k] == once[k] <==>
              if k in dst && dst[k].Obj? then CleanOver(dst[k].fields, src[k].fields) else NullFree(src[k])
    {
      if k in dst && dst[k].Obj? {
        MergedIdempotentIff(dst[k].fields, src[k].fields);
      } else {
        SelfMergeIff(src[k].fields);
      }
    }
    if CleanOver(dst, src) {
      assert twice == once;
    } else {
      var k :| k in src && src[k].Obj? &&
               !(if k in dst && dst[k].Obj? then CleanOver(dst[k].fields, src[k].fields) else NullFree(src[k]));
      assert twice[k] != once[k];
    }
  }

  // ----- Patches computed by comparison -----

  /** The contract of CreateMergePatch: the differing keys, objects compared recursively, arrays as wholes. */
  function Diff(a: Fields, b: Fields): Fields
    decreases Obj(b)
  {
    map k | k in a.Keys + b.Keys && !(k in a && k in b && a[k] == b[k]) ::
      if k !in b then Null
      else if k in a && a[k].Obj? && b[k].Obj? then Obj(Diff(a[k].fields, b[k].fields))
      else b[k]
  }

  /** Where `b` differs from `a` it puts no null, on its own or inside a new object. */
  ghost predicate CleanChange(a: Fields, b: Fields)
    decreases Obj(b)
  {
    forall k | k in b && !(k in a && a[k] == b[k]) ::
      && !b[k].Null?
      && if k in a && a[k].Obj? && b[k].Obj? then CleanChange(a[k].fields, b[k].fields) else NullFree(b[k])
  }

  /** Applied to the object it was computed from, the patch gives the modified object exactly for clean changes. */
  lemma {:induction false} DiffRoundTripIff(a: Fields, b: Fields)
    ensures MergePatch(Obj(a), Obj(Diff(a, b))) == Obj(b) <==> CleanChange(a, b)
    decreases Obj(b)
  {
    var out := MergePatch(Obj(a), Obj(Diff(a, b))).fields;
    forall k | k in b
      ensures k in out && out[k] == b[k] <==>
              (k in a && a[k] == b[k])
              || (!b[k].Null? &&
                  if k in a && a[k].Obj? && b[k].Obj? then CleanChange(a[k].fields, b[k].fields) else NullFree(b[k]))
    {
      var below := if k in a then a[k] else Null;
      if k in a && a[k] == b[k] {
        assert k !in Diff(a, b);
      } else if below.Obj? && b[k].Obj? {
        assert out[k] == MergePatch(below, Obj(Diff(below.fields, b[k].fields)));
        DiffRoundTripIff(below.fields, b[k].fields);
      } else if b[k].Null? {
        assert Diff(a, b)[k] == Null && k !in out;
      } else {
        assert out[k] == MergePatch(below, b[k]);
        if !below.Obj? {
          CopyIsMergeIff(below, b[k]);
        }
      }
    }
    if CleanChange(a, b) {
      assert out == b;
    } else if out == b {
      forall k | k in b && !(k in a && a[k] == b[k])
        ensures !b[k].Null? &&
                if k in a && a[k].Obj? && b[k].Obj? then CleanChange(a[k].fields, b[k].fields) else NullFree(b[k])
      {
        assert k in out && out[k] == b[k];
      }
    }
  }

  /** Walking down the patch along `path` meets a value that is no object: the patch writes at or above `path`. */
  predicate Writes(patch: Json, path: seq<string>)
    decreases |path|
  {
    !patch.Obj? || (path != [] && path[0] in patch.fields && Writes(patch.fields[path[0]], path[1..]))
  }

  /** The patch stops short of `path`: it neither writes there nor describes anything below. */
  predicate Skips(patch: Json, path: seq<string>)
    decreases |path|
  {
    patch.Obj? && path != [] && (path[0] in patch.fields ==> Skips(patch.fields[path[0]], path[1..]))
  }

  /** Any patch over any object: paths it skips keep the object's value, paths it writes get the patch's. */
  lemma {:induction false} PatchActsOnItsPaths(now: Json, patch: Json, path: seq<string>)
    requires patch.Obj?
    ensures Skips(patch, path) ==> At(MergePatch(now, patch), path) == At(now, path)
    ensures Writes(patch, path) ==>
              At(MergePatch(now, patch), path) == if At(patch, path) == Some(Null) then None else At(patch, path)
    decreases |path|
  {
    if path != [] {
      var k, rest := path[0], path[1..];
      var out := MergePatch(now, patch);
      var below := if now.Obj? && k in now.fields then now.fields[k] else Null;
      if k !in patch.fields {
        assert At(out, path) == At(now, path);
      } else if patch.fields[k].Obj? {
        assert out.fields[k] == MergePatch(below, patch.fields[k]);
        PatchActsOnItsPaths(below, patch.fields[k], rest);
      } else {
        assert MergePatch(below, patch.fields[k]) == patch.fields[k] && !Skips(patch.fields[k], rest);
        assert rest != [] ==> At(patch.fields[k], rest) == None;
      }
    }
  }

  /**
   * A patch computed from snapshot `a` and modification `b`, applied to the object as it is now:
   * what the modification left as it was in the snapshot holds the newer value,
   * what it wrote holds the modified value, deletions included.
   */
  lemma {:induction false} StalePatchRevertsNothing(a: Fields, b: Fields, now: Json, path: seq<string>)
    requires CleanChange(a, b) && path != []
    ensures var out := MergePatch(now, Obj(Diff(a, b)));
            && (At(Obj(a), path).Some? && At(Obj(a), path) == At(Obj(b), path) ==> At(out, path) == At(now, path))
            && (Writes(Obj(Diff(a, b)), path) ==> At(out, path) == At(Obj(b), path))
  {
    PatchActsOnItsPaths(now, Obj(Diff(a, b)), path);
    DiffAlongPath(a, b, path);
  }

  lemma {:induction false} DiffAlongPath(a: Fields, b: Fields, path: seq<string>)
    requires CleanChange(a, b) && path != []
    ensures At(Obj(a), path).Some? && At(Obj(a), path) == At(Obj(b), path) ==> Skips(Obj(Diff(a, b)), path)
    ensures Writes(Obj(Diff(a, b)), path) ==>
              At(Obj(b), path) == if At(Obj(Diff(a, b)), path) == Some(Null) then None else At(Obj(Diff(a, b)), path)
    decreases |path|
  {
    var k, rest, d := path[0], path[1..], Diff(a, b);
    if k in a && k in b && a[k] == b[k] {
      assert k !in d;
    } else if k in a && k in b && a[k].Obj? && b[k].Obj? {
      assert d[k] == Obj(Diff(a[k].fields, b[k].fields));
      assert At(Obj(a), path) == At(a[k], rest) && At(Obj(b), path) == At(b[k], rest);
      assert At(Obj(d), path) == At(d[k], rest) && Writes(Obj(d), path) == Writes(d[k], rest);
      if rest != [] {
        DiffAlongPath(a[k].fields, b[k].fields, rest);
      }
    } else if k in b {
      assert d[k] == b[k];
      assert At(Obj(a), path) != At(Obj(b), path) || At(Obj(a), path).None?;
      NoNullAt(b[k], rest);
    } else if k in a {
      assert d[k] == Null;
      assert rest != [] ==> At(Null, rest) == None;
    }
  }

  lemma {:induction false} NoNullAt(j: Json, path: seq<string>)
    requires NullFree(j) && !j.Null?
    ensures At(j, path) != Some(Null)
    decreases |path|
  {
    if path != [] && j.Obj? && path[0] in j.fields {
      NoNullAt(j.fields[path[0]], path[1..]);
    }
  }

  // ----- A label or annotation map that becomes empty -----

  /** Object metadata as Go encodes it: an empty map in `field` ("labels" or "annotations") is left out. */
  function WithEntries(meta: Fields, field: string, entries: Fields): Fields {
    if entries == map[] then meta - {field} else meta[field := Obj(entries)]
  }

  /**
   * Removing labels, or annotations, by a computed patch: an entry that another client adds meanwhile survives
   * exactly if the snapshot carried some entry besides the removed ones; otherwise the patch nulls the whole map.
   */
  lemma NewEntrySurvivesIff(a: Fields, b: Fields, metaA: Fields, metaB: Fields, field: string,
                            entries: Fields, removed: set<string>, now: Json, added: string)
    requires removed != {} && removed <= entries.Keys && added !in entries
    requires "metadata" in a && a["metadata"] == Obj(WithEntries(metaA, field, entries))
    requires "metadata" in b && b["metadata"] == Obj(WithEntries(metaB, field, entries - removed))
    requires At(now, ["metadata", field, added]).Some?
    ensures var path := ["metadata", field, added];
            At(MergePatch(now, Obj(Diff(a, b))), path) == At(now, path) <==> entries.Keys != removed
  {
    var path, kept := ["metadata", field, added], entries - removed;
    var patch := Obj(Diff(a, b));
    var inner := Diff(WithEntries(metaA, field, entries), WithEntries(metaB, field, kept));
    assert path[1..] == [field, added] && path[1..][1..] == [added];
    PatchActsOnItsPaths(now, patch, path);
    EntriesInPatch(metaA, metaB, field, entries, removed);
    assert patch.fields["metadata"] == Obj(inner);
    if kept != map[] {
      assert Skips(inner[field], [added]);
      assert Skips(Obj(inner), [field, added]);
    } else {
      assert Writes(Obj(inner), [field, added]);
      assert At(Obj(inner), [field, added]) == None;
    }
  }

  lemma EntriesInPatch(metaA: Fields, metaB: Fields, field: string, entries: Fields, removed: set<string>)
    requires removed != {} && removed <= entries.Keys
    ensures var kept, d := entries - removed,
        Diff(WithEntries(metaA, field, entries), WithEntries(metaB, field, entries - removed));
            && field in d && (kept == map[] <==> entries.Keys == removed)
            && d[field] == if kept == map[] then Null else Obj(Diff(entries, kept))
  {
    var kept := entries - removed;
    var k :| k in removed;
    assert k in entries && k !in kept;
    assert kept.Keys == entries.Keys - removed;
    assert kept == map[] <==> kept.Keys == {};
    var before, after := WithEntries(metaA, field, entries), WithEntries(metaB, field, kept);
    assert entries != map[] && before[field] == Obj(entries);
    if kept != map[] {
      assert after[field] == Obj(kept) && before[field] != after[field];
    } else {
      assert field !in after;
    }
  }
}
