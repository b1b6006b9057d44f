/** JSON Pointer paths as the mock client's JSON Patch reads them, and updates along a path. */
module JsonPointer {
  import opened Text
  import opened Json

  /** Go's strings.ReplaceAll for a non-empty pattern: leftmost, non-overlapping. */
  function ReplaceAll(s: string, part: string, with: string): string
    requires part != ""
    decreases |s|
  {
    if s == "" then ""
    else if part <= s then with + ReplaceAll(s[|part|..], part, with)
    else [s[0]] + ReplaceAll(s[1..], part, with)
  }

  function Unescape(s: string): string {
    ReplaceAll(ReplaceAll(s, "~1", "/"), "~0", "~")
  }

  function Escape(s: string): string {
    ReplaceAll(ReplaceAll(s, "~", "~0"), "/", "~1")
  }

  /** Decoding in one left-to-right pass, each escape read once: what section 4 of RFC 6901 asks for. */
  function Decode(s: string): string
    decreases |s|
  {
    if s == "" then ""
    else if "~1" <= s then "/" + Decode(s[2..])
    else if "~0" <= s then "~" + Decode(s[2..])
    else [s[0]] + Decode(s[1..])
  }

  lemma ReplaceStep(c: char, rest: string, part: string, with: string)
    requires part != ""
    ensures !(part <= [c] + rest) ==> ReplaceAll([c] + rest, part, with) == [c] + ReplaceAll(rest, part, with)
    ensures ReplaceAll(part + rest, part, with) == with + ReplaceAll(rest, part, with)
  {
    assert ([c] + rest)[1..] == rest;
    assert (part + rest)[|part|..] == rest;
  }

  lemma UnescapeSlash(rest: string)
    ensures Unescape("~1" + rest) == "/" + Unescape(rest)
  {
    var once := ReplaceAll(rest, "~1", "/");
    ReplaceStep('~', rest, "~1", "/");
    assert (['/'] + once)[0] == '/' && ['/'] + once == "/" + once;
    ReplaceStep('/', once, "~0", "~");
    assert "/" + ReplaceAll(once, "~0", "~") == ['/'] + ReplaceAll(once, "~0", "~");
  }

  lemma UnescapeTilde(rest: string)
    ensures Unescape("~0" + rest) == "~" + Unescape(rest)
  {
    var once := ReplaceAll(rest, "~1", "/");
    assert "~0" + rest == ['~'] + (['0'] + rest);
    ReplaceStep('0', rest, "~1", "/");
    ReplaceStep('~', ['0'] + rest, "~1", "/");
    assert ['~'] + (['0'] + once) == "~0" + once;
    ReplaceStep('~', once, "~0", "~");
  }

  /** The two replacement passes, in the code's order, decode every string as the single pass does. */
  lemma {:induction false} TwoPassesDecode(s: string)
    ensures Unescape(s) == Decode(s)
    decreases |s|
  {
    if s == "" {
    } else if "~1" <= s {
      TwoPassesDecode(s[2..]);
      UnescapeSlash(s[2..]);
      assert s == "~1" + s[2..];
    } else if "~0" <= s {
      TwoPassesDecode(s[2..]);
      UnescapeTilde(s[2..]);
      assert s == "~0" + s[2..];
    } else {
      TwoPassesDecode(s[1..]);
      ReplaceStep(s[0], ReplaceAll(s[1..], "~1", "/"), "~0", "~");
    }
  }

  lemma EscapeStep(s: string)
    requires s != ""
    ensures Escape(s) == (if s[0] == '~' then "~0" else if s[0] == '/' then "~1" else [s[0]]) + Escape(s[1..])
  {
    var rest := ReplaceAll(s[1..], "~", "~0");
    assert s == [s[0]] + s[1..];
    ReplaceStep(s[0], s[1..], "~", "~0");
    if s[0] == '~' {
      assert "~0" + rest == ['~'] + (['0'] + rest);
      ReplaceStep('0', rest, "/", "~1");
      ReplaceStep('~', ['0'] + rest, "/", "~1");
    } else {
      ReplaceStep(s[0], rest, "/", "~1");
    }
  }

  lemma {:induction false} UnescapeEscape(s: string)
    ensures Unescape(Escape(s)) == s && '/' !in Escape(s)
  {
    TwoPassesDecode(Escape(s));
    if s != "" {
      var e, rest := Escape(s), Escape(s[1..]);
      EscapeStep(s);
      UnescapeEscape(s[1..]);
      TwoPassesDecode(rest);
      if s[0] == '~' || s[0] == '/' {
        assert e[2..] == rest && e[1] == if s[0] == '/' then '1' else '0';
        assert if s[0] == '/' then "~1" <= e else "~0" <= e && !("~1" <= e);
      } else {
        assert e == [s[0]] + rest && e[1..] == rest;
      }
      assert Decode(e) == [s[0]] + Decode(rest);
    }
  }

  /** The two passes in the other order. */
  function UnescapeSwapped(s: string): string {
    ReplaceAll(ReplaceAll(s, "~0", "~"), "~1", "/")
  }

  lemma SlashStays(rest: string)
    ensures ReplaceAll("~1" + rest, "~0", "~") == "~1" + ReplaceAll(rest, "~0", "~")
  {
    var tail := ['1'] + rest;
    assert "~1" + rest == ['~'] + tail;
    assert (['~'] + tail)[1] == '1';
    ReplaceStep('~', tail, "~0", "~");
    assert tail[0] == '1';
    ReplaceStep('1', rest, "~0", "~");
    assert ['~'] + (['1'] + ReplaceAll(rest, "~0", "~")) == "~1" + ReplaceAll(rest, "~0", "~");
  }

  lemma HalfStep(s: string)
    requires s != ""
    ensures ReplaceAll(Escape(s), "~0", "~") ==
            (if s[0] == '/' then "~1" else [s[0]]) + ReplaceAll(Escape(s[1..]), "~0", "~")
  {
    var rest := Escape(s[1..]);
    EscapeStep(s);
    if s[0] == '~' {
      ReplaceStep('~', rest, "~0", "~");
    } else if s[0] == '/' {
      SlashStays(rest);
    } else {
      assert ([s[0]] + rest)[0] != '~';
      ReplaceStep(s[0], rest, "~0", "~");
    }
  }

  lemma {:induction false} SwappedDecode(s: string)
    ensures UnescapeSwapped(Escape(s)) == ReplaceAll(s, "~1", "/")
    decreases |s|
  {
    if s != "" {
      var half := ReplaceAll(Escape(s[1..]), "~0", "~");
      HalfStep(s);
      SwappedDecode(s[1..]);
      if s[0] == '/' {
        ReplaceStep('~', half, "~1", "/");
      } else if "~1" <= s {
        SwappedDecode(s[2..]);
        HalfOfTildeOne(s);
        ReplaceStep('~', ReplaceAll(Escape(s[2..]), "~0", "~"), "~1", "/");
      } else {
        if s[1..] != "" {
          HalfStep(s[1..]);
        }
        ReplaceStep(s[0], half, "~1", "/");
      }
    }
  }

  lemma HalfOfTildeOne(s: string)
    requires "~1" <= s
    ensures ReplaceAll(Escape(s), "~0", "~") == "~1" + ReplaceAll(Escape(s[2..]), "~0", "~")
  {
    var below := ReplaceAll(Escape(s[2..]), "~0", "~");
    HalfStep(s);
    HalfStep(s[1..]);
    assert s[1..][1..] == s[2..] && ['~'] + (['1'] + below) == "~1" + below;
  }

  lemma {:induction false} ReplacingChangesIff(s: string)
    ensures |ReplaceAll(s, "~1", "/")| <= |s|
    ensures ReplaceAll(s, "~1", "/") == s <==> !Contains(s, "~1")
    ensures Contains(s, "~1") ==> |ReplaceAll(s, "~1", "/")| < |s|
    decreases |s|
  {
    if "~1" <= s {
      ReplacingChangesIff(s[2..]);
      assert OccursAt(s, "~1", 0);
    } else if s != "" {
      ReplacingChangesIff(s[1..]);
      if Contains(s[1..], "~1") {
        var i :| 0 <= i <= |s[1..]| && OccursAt(s[1..], "~1", i);
        assert s[1..][i..] == s[i + 1..];
        assert OccursAt(s, "~1", i + 1);
      }
      forall i | 0 <= i <= |s| && OccursAt(s, "~1", i)
        ensures Contains(s[1..], "~1")
      {
        assert s[1..][i - 1..] == s[i..];
        assert OccursAt(s[1..], "~1", i - 1);
      }
      assert [s[0]] + s[1..] == s;
    }
  }

  /** In the other order exactly the segments that hold a tilde-one are misread. */
  lemma OrderOfPassesMattersIff(s: string)
    ensures UnescapeSwapped(Escape(s)) == s <==> !Contains(s, "~1")
  {
    SwappedDecode(s);
    ReplacingChangesIff(s);
  }

  /** Go's strings.Split on "/"; never empty. */
  function Split(s: string): (parts: seq<string>)
    ensures parts != []
  {
    if s == "" then [""]
    else if s[0] == '/' then [""] + Split(s[1..])
    else
      var rest := Split(s[1..]);
      [[s[0]] + rest[0]] + rest[1..]
  }

  function Print(segments: seq<string>): string {
    if segments == [] then "" else "/" + Escape(segments[0]) + Print(segments[1..])
  }

  function TrimSlash(path: string): string {
    if "/" <= path then path[1..] else path
  }

  function Parse(path: string): (segments: seq<string>)
    ensures segments != []
  {
    var parts := Split(TrimSlash(path));
    seq(|parts|, i requires 0 <= i < |parts| => Unescape(parts[i]))
  }

  method ParsePath(path: string) returns (segments: seq<string>)
    ensures segments == Parse(path)
  {
    segments := Split(TrimSlash(path));
    ghost var parts := segments;
    for i := 0 to |segments|
      invariant |segments| == |parts|
      invariant forall j | i <= j < |parts| :: segments[j] == parts[j]
      invariant forall j | 0 <= j < i :: segments[j] == Unescape(parts[j])
    {
      var seg := ReplaceAll(segments[i], "~1", "/");
      seg := ReplaceAll(seg, "~0", "~");
      segments := segments[i := seg];
    }
  }

  lemma {:induction false} SplitAtSlash(head: string, tail: string)
    requires '/' !in head
    ensures Split(head + "/" + tail) == [head] + Split(tail)
    ensures Split(head) == [head]
  {
    var s := head + "/" + tail;
    if head != "" {
      assert s[1..] == head[1..] + "/" + tail;
      SplitAtSlash(head[1..], tail);
      assert s[0] == head[0] != '/' && [head[0]] + head[1..] == head;
      assert ([head[1..]] + Split(tail))[1..] == Split(tail);
    } else {
      assert s[0] == '/' && s[1..] == tail;
    }
  }

  function Escaped(segments: seq<string>): seq<string> {
    if segments == [] then [] else [Escape(segments[0])] + Escaped(segments[1..])
  }

  lemma PrintStep(segments: seq<string>)
    requires segments != []
    ensures Print(segments)[1..] ==
            if |segments| == 1 then Escape(segments[0])
            else Escape(segments[0]) + "/" + Print(segments[1..])[1..]
  {
    var head, rest := Escape(segments[0]), segments[1..];
    PrefixOff(head, Print(rest));
    if rest == [] {
      assert head + "" == head;
    } else {
      PrefixOff(Escape(rest[0]), Print(rest[1..]));
      ConcatAssoc(head, "/", Print(rest)[1..]);
    }
  }

  lemma PrefixOff(head: string, tail: string)
    ensures ("/" + head + tail)[1..] == head + tail
    ensures "/" + head + tail == "/" + ("/" + head + tail)[1..]
  {
  }

  lemma {:induction false} SplitPrinted(segments: seq<string>)
    requires segments != []
    ensures Split(Print(segments)[1..]) == Escaped(segments)
  {
    UnescapeEscape(segments[0]);
    PrintStep(segments);
    if |segments| == 1 {
      SplitAtSlash(Escape(segments[0]), "");
    } else {
      SplitAtSlash(Escape(segments[0]), Print(segments[1..])[1..]);
      SplitPrinted(segments[1..]);
    }
  }

  lemma {:induction false} EscapedAt(segments: seq<string>, i: nat)
    requires i < |segments|
    ensures |Escaped(segments)| == |segments| && Escaped(segments)[i] == Escape(segments[i])
  {
    if |segments| > 1 {
      EscapedAt(segments[1..], if i > 0 then i - 1 else 0);
    }
  }

  /**
   * Any non-empty list of segments, empty segments and segments with "/" and "~" included, is read back from its
   * pointer.
   */
  lemma ParsePrint(segments: seq<string>)
    requires segments != []
    ensures Parse(Print(segments)) == segments
  {
    SplitPrinted(segments);
    EscapedAt(segments, 0);
    forall i | 0 <= i < |segments|
      ensures Parse(Print(segments))[i] == segments[i]
    {
      EscapedAt(segments, i);
      UnescapeEscape(segments[i]);
    }
  }

  // ----- Updates along a path -----

  function FieldsAt(obj: Fields, key: string): Fields {
    if key in obj && obj[key].Obj? then obj[key].fields else map[]
  }

  /** setNestedField: intermediate values that are no objects give way to new objects. */
  function WithPath(obj: Fields, path: seq<string>, value: Json): Fields
    requires path != []
    decreases |path|
  {
    if |path| == 1 then obj[path[0] := value]
    else obj[path[0] := Obj(WithPath(FieldsAt(obj, path[0]), path[1..], value))]
  }

  /** removeNestedField. */
  function WithoutPath(obj: Fields, path: seq<string>): Fields
    requires path != []
    decreases |path|
  {
    if |path| == 1 then obj - {path[0]}
    else if path[0] in obj && obj[path[0]].Obj? then obj[path[0] := Obj(WithoutPath(obj[path[0]].fields, path[1..]))]
    else obj
  }

  /** A set value is read back, with everything below it; paths apart from it keep their values. */
  lemma {:induction false} SetLaws(obj: Fields, path: seq<string>, value: Json, other: seq<string>)
    requires path != []
    ensures var out := Obj(WithPath(obj, path, value));
            && At(out, path) == Some(value)
            && (path <= other ==> At(out, other) == At(value, other[|path|..]))
            && (!(path <= other) && !(other <= path) ==> At(out, other) == At(Obj(obj), other))
            && (other <= path && other != path ==> At(out, other).Some? && At(out, other).value.Obj?)
    decreases |path|
  {
    var key, rest := path[0], path[1..];
    var out := WithPath(obj, path, value);
    if |path| > 1 {
      var below := FieldsAt(obj, key);
      var tail := if other != [] then other[1..] else [];
      SetLaws(below, rest, value, tail);
      assert At(Obj(out), path) == At(out[key], rest);
      if other != [] && other[0] == key {
        assert other == [key] + tail && path == [key] + rest;
        assert rest <= tail <==> path <= other;
        assert tail <= rest <==> other <= path;
        assert path <= other ==> other[|path|..] == tail[|rest|..];
        assert At(Obj(out), other) == At(out[key], tail);
        if tail != [] {
          assert At(Obj(obj), other) == At(Obj(below), tail);
        }
      }
    }
  }

  /** A removed path is absent, with everything below it; paths that do not lead through it keep their values. */
  lemma {:induction false} RemoveLaws(obj: Fields, path: seq<string>, other: seq<string>)
    requires path != []
    ensures var out := Obj(WithoutPath(obj, path));
            && (path <= other ==> At(out, other) == None)
            && (!(path <= other) && !(other <= path) ==> At(out, other) == At(Obj(obj), other))
            && (At(Obj(obj), path) == None ==> out == Obj(obj))
    decreases |path|
  {
    var key, rest := path[0], path[1..];
    var tail := if other != [] then other[1..] else [];
    if other != [] && other[0] == key {
      assert other == [key] + tail && path == [key] + rest;
      assert rest <= tail <==> path <= other;
      assert tail <= rest <==> other <= path;
    }
    if |path| > 1 && key in obj && obj[key].Obj? {
      RemoveLaws(obj[key].fields, rest, tail);
      assert At(Obj(obj), path) == At(obj[key], rest);
      if other != [] && other[0] == key {
        assert At(Obj(WithoutPath(obj, path)), other) == At(WithoutPath(obj, path)[key], tail);
      }
    } else if |path| == 1 && key in obj {
      assert At(Obj(obj), path) == At(obj[key], []);
    }
  }
}
