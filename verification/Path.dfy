/**
 Paths: a stack of segments to which further segments are joined, and its text.
 */
module Path {

  // ----- Segments of a text -----

  // The segment up to the first '/', and what follows that.
  function NextSegment(s: string): (r: (string, string))
    requires s != ""
    ensures '/' !in r.0 && |r.1| < |s|
    ensures s == r.0 + "/" + r.1 || (s == r.0 && r.1 == "")
  {
    if s[0] == '/' then ("", s[1..])
    else if |s| == 1 then (s, "")
    else
      var next := NextSegment(s[1..]);
      ([s[0]] + next.0, next.1)
  }

  function Split(s: string): seq<string>
    decreases |s|
  {
    if s == "" then [] else [NextSegment(s).0] + Split(NextSegment(s).1)
  }

  // ----- What joining does to the stack of segments -----

  function Executed(segments: seq<string>, segment: string): seq<string> {
    if segment == "" || segment == "." then segments
    else if segment == ".." && segments != [] && segments[|segments| - 1] != ".." then segments[..|segments| - 1]
    else segments + [segment]
  }

  function AllExecuted(segments: seq<string>, more: seq<string>): seq<string>
    decreases |more|
  {
    if more == [] then segments else AllExecuted(Executed(segments, more[0]), more[1..])
  }

  function Joined(segments: seq<string>, s: string): seq<string> {
    AllExecuted(segments, Split(s))
  }

  lemma JoinedStep(segments: seq<string>, s: string)
    ensures Joined(segments, "") == segments
    ensures s != "" ==> Joined(segments, s) == Joined(Executed(segments, NextSegment(s).0), NextSegment(s).1)
  {
    if s != "" {
      var next := NextSegment(s);
      assert ([next.0] + Split(next.1))[1..] == Split(next.1);
    }
  }

  // ----- Normal paths: steps upward first, then names -----

  predicate Name(segment: string) {
    segment != "" && segment != "." && segment != ".." && '/' !in segment
  }

  ghost predicate Normal(segments: seq<string>) {
    && (forall i :: 0 <= i < |segments| ==> segments[i] == ".." || Name(segments[i]))
    && (forall i, j :: 0 <= i < j < |segments| && segments[j] == ".." ==> segments[i] == "..")
  }

  lemma ExecutedNormal(segments: seq<string>, segment: string)
    requires Normal(segments) && '/' !in segment
    ensures Normal(Executed(segments, segment))
  {
  }

  // Whatever is joined to a normal path, it stays normal.
  lemma {:induction false} JoinedNormal(segments: seq<string>, s: string)
    requires Normal(segments)
    ensures Normal(Joined(segments, s))
    decreases |s|
  {
    JoinedStep(segments, s);
    if s != "" {
      var next := NextSegment(s);
      ExecutedNormal(segments, next.0);
      JoinedNormal(Executed(segments, next.0), next.1);
    }
  }

  lemma {:induction false} AllExecutedConcat(segments: seq<string>, a: seq<string>, b: seq<string>)
    ensures AllExecuted(segments, a + b) == AllExecuted(AllExecuted(segments, a), b)
    decreases |a|
  {
    if a == [] {
      assert a + b == b;
    } else {
      assert (a + b)[1..] == a[1..] + b;
      AllExecutedConcat(Executed(segments, a[0]), a[1..], b);
    }
  }

  lemma {:induction false} SegmentBefore(a: string, b: string)
    requires '/' !in a
    ensures NextSegment(a + "/" + b) == (a, b)
    ensures a != "" ==> NextSegment(a) == (a, "")
    decreases |a|
  {
    var s := a + "/" + b;
    if a != "" {
      assert s[1..] == a[1..] + "/" + b && s[0] == a[0] != '/';
      SegmentBefore(a[1..], b);
      assert a == [a[0]] + a[1..];
    }
  }

  lemma NothingExecuted(segments: seq<string>)
    ensures Executed(segments, "") == segments
  {
  }

  // Joining "a/b" is joining "a" and then "b".
  lemma {:induction false} JoinTwice(segments: seq<string>, a: string, b: string)
    ensures Joined(segments, a + "/" + b) == Joined(Joined(segments, a), b)
    decreases |a|
  {
    hide Split, AllExecuted, NextSegment, Executed;
    var s := a + "/" + b;
    JoinedStep(segments, a);
    JoinedStep(segments, s);
    if a == "" {
      SegmentBefore(a, b);
      NothingExecuted(segments);
    } else {
      var next := NextSegment(a);
      if a == next.0 {
        SegmentBefore(a, b);
        JoinedStep(Executed(segments, a), "");
      } else {
        assert s == next.0 + "/" + (next.1 + "/" + b);
        SegmentBefore(next.0, next.1 + "/" + b);
        JoinTwice(Executed(segments, next.0), next.1, b);
      }
    }
  }

  // ----- The text of a path -----

  function Rendered(segments: seq<string>): string
    decreases |segments|
  {
    if segments == [] then ""
    else if |segments| == 1 then segments[0]
    else segments[0] + "/" + Rendered(segments[1..])
  }

  function Text(absolute: bool, segments: seq<string>): string {
    (if absolute then "/" else "") + Rendered(segments)
  }

  predicate Absolute(s: string) {
    s != "" && s[0] == '/'
  }

  // One segment: nothing and `.` stay, a name goes on top, `..` takes a name off and otherwise goes on top itself.
  lemma OneSegment(segments: seq<string>, name: string)
    requires Name(name)
    ensures Joined(segments, "") == segments && Joined(segments, ".") == segments
    ensures Joined(segments, name) == segments + [name]
    ensures Joined(segments, "..")
         == if segments == [] || segments[|segments| - 1] == ".." then segments + [".."] else segments[..|segments| - 1]
  {
    SegmentBefore(name, "");
    SegmentBefore(".", "");
    SegmentBefore("..", "");
    JoinedStep(segments, name);
    JoinedStep(segments, ".");
    JoinedStep(segments, "..");
    JoinedStep(Executed(segments, name), "");
    JoinedStep(Executed(segments, "."), "");
    JoinedStep(Executed(segments, ".."), "");
  }

  // "a/./b" and "a//b" and "a/name/../b" are "a/b".
  lemma Shortened(segments: seq<string>, a: string, b: string, name: string)
    requires Name(name)
    ensures Joined(segments, a + "/./" + b) == Joined(segments, a + "/" + b)
    ensures Joined(segments, a + "//" + b) == Joined(segments, a + "/" + b)
    ensures Joined(segments, a + "/" + name + "/../" + b) == Joined(segments, a + "/" + b)
  {
    hide Joined;
    var there := Joined(segments, a);
    JoinTwice(segments, a, b);
    assert a + "/./" + b == a + "/" + ("." + "/" + b) && a + "//" + b == a + "/" + ("" + "/" + b);
    assert a + "/" + name + "/../" + b == a + "/" + (name + "/" + (".." + "/" + b));
    JoinTwice(segments, a, "." + "/" + b);
    JoinTwice(there, ".", b);
    JoinTwice(segments, a, "" + "/" + b);
    JoinTwice(there, "", b);
    JoinTwice(segments, a, name + "/" + (".." + "/" + b));
    JoinTwice(there, name, ".." + "/" + b);
    JoinTwice(there + [name], "..", b);
    OneSegment(there, name);
    OneSegment(there + [name], name);
    assert (there + [name])[..|there + [name]| - 1] == there;
  }

  lemma {:induction false} SplitRendered(segments: seq<string>)
    requires Normal(segments)
    ensures Split(Rendered(segments)) == segments && !Absolute(Rendered(segments))
    decreases |segments|
  {
    if segments != [] {
      var rest := Rendered(segments[1..]);
      SplitRendered(segments[1..]);
      SegmentBefore(segments[0], rest);
      assert segments == [segments[0]] + segments[1..];
    }
  }

  // Executing the segments of a normal path one after another only adds them.
  lemma {:induction false} ExecuteAdds(segments: seq<string>, more: seq<string>)
    requires Normal(segments + more)
    ensures AllExecuted(segments, more) == segments + more
    decreases |more|
  {
    if more == [] {
      assert segments + more == segments;
    } else {
      var all := segments + more;
      assert all == segments + [more[0]] + more[1..];
      assert segments != [] ==> all[|segments| - 1] == segments[|segments| - 1] && all[|segments|] == more[0];
      assert more[0] == ".." || Name(more[0]) by { assert all[|segments|] == more[0]; }
      ExecuteAdds(segments + [more[0]], more[1..]);
    }
  }

  // The text of a path is read back as that path.
  lemma Reparse(absolute: bool, segments: seq<string>)
    requires Normal(segments)
    ensures Joined([], Text(absolute, segments)) == segments
    ensures Absolute(Text(absolute, segments)) <==> absolute
  {
    hide Normal, Split, AllExecuted, Rendered, NextSegment;
    SplitRendered(segments);
    assert [] + segments == segments;
    ExecuteAdds([], segments);
    var text := Rendered(segments);
    if absolute {
      SegmentBefore("", text);
      assert "" + "/" + text == "/" + text;
      JoinedStep([], "/" + text);
    } else {
      assert Text(false, segments) == text;
    }
  }

  // Comparing texts is comparing paths.
  lemma SameText(absolute: bool, segments: seq<string>, absolute': bool, segments': seq<string>)
    requires Normal(segments) && Normal(segments')
    ensures Text(absolute, segments) == Text(absolute', segments') <==> absolute == absolute' && segments == segments'
  {
    Reparse(absolute, segments);
    Reparse(absolute', segments');
  }

  // ----- The way from one path to another -----

  function Common(a: seq<string>, b: seq<string>): (i: nat)
    ensures i <= |a| && i <= |b| && a[..i] == b[..i]
    ensures i < |a| && i < |b| ==> a[i] != b[i]
    decreases |a|
  {
    if a == [] || b == [] || a[0] != b[0] then 0
    else
      assert forall i :: i <= |a| - 1 && i <= |b| - 1 && 0 <= i && a[1..][..i] == b[1..][..i] ==>
          a[..i + 1] == [a[0]] + a[1..][..i] && b[..i + 1] == [b[0]] + b[1..][..i];
      Common(a[1..], b[1..]) + 1
  }

  function Ups(k: nat): (s: seq<string>)
    ensures |s| == k && forall i :: 0 <= i < k ==> s[i] == ".."
  {
    seq(k, i => "..")
  }

  function Relative(from: seq<string>, to: seq<string>): seq<string> {
    Ups(|from| - Common(from, to)) + to[Common(from, to)..]
  }

  lemma RelativeNormal(from: seq<string>, to: seq<string>)
    requires Normal(to)
    ensures Normal(Relative(from, to))
  {
    var i := Common(from, to);
    var ups, rest := Ups(|from| - i), to[i..];
    var s := ups + rest;
    forall k | 0 <= k < |s|
      ensures s[k] == ".." || Name(s[k])
    {
      assert k >= |ups| ==> s[k] == to[i + (k - |ups|)];
    }
    forall j, k | 0 <= j < k < |s| && s[k] == ".."
      ensures s[j] == ".."
    {
      assert j >= |ups| ==> s[k] == to[i + (k - |ups|)] && s[j] == to[i + (j - |ups|)];
    }
  }

  lemma UpsNext(k: nat)
    requires k > 0
    ensures Ups(k)[0] == ".." && Ups(k)[1..] == Ups(k - 1)
  {
  }

  // Going up removes names.
  lemma {:induction false} UpOverNames(from: seq<string>, i: nat)
    requires i <= |from| && ".." !in from[i..]
    ensures AllExecuted(from, Ups(|from| - i)) == from[..i]
    decreases |from| - i
  {
    if i < |from| {
      UpsNext(|from| - i);
      var front := from[..|from| - 1];
      assert from[i..][|from| - 1 - i] == from[|from| - 1];
      assert front[i..] == from[i..][..|from| - 1 - i] && front[..i] == from[..i];
      UpOverNames(front, i);
    } else {
      assert from[..i] == from;
    }
  }

  // Going up does not get below a step upward.
  lemma {:induction false} UpStops(from: seq<string>, i: nat)
    requires Normal(from) && i < |from| && from[i] == ".."
    ensures Normal(AllExecuted(from, Ups(|from| - i))) && |AllExecuted(from, Ups(|from| - i))| > i
    decreases |from|
  {
    var ups := Ups(|from| - i);
    if from[|from| - 1] == ".." {
      assert Normal(from + ups);
      ExecuteAdds(from, ups);
    } else {
      UpsNext(|from| - i);
      UpStops(from[..|from| - 1], i);
    }
  }

  // Names are added to whatever there is.
  lemma {:induction false} NamesAdded(segments: seq<string>, names: seq<string>)
    requires forall i :: 0 <= i < |names| ==> Name(names[i])
    ensures AllExecuted(segments, names) == segments + names
    decreases |names|
  {
    if names == [] {
      assert segments + names == segments;
    } else {
      assert segments + names == segments + [names[0]] + names[1..];
      NamesAdded(segments + [names[0]], names[1..]);
    }
  }

  // Joining the way from one path to another onto the first leads to the other exactly when what the first has
  // beyond the common part goes nowhere upward.
  lemma RelativeJoined(from: seq<string>, to: seq<string>)
    requires Normal(from) && Normal(to)
    ensures Joined(from, Rendered(Relative(from, to))) == to <==> ".." !in from[Common(from, to)..]
  {
    hide Common, Ups, AllExecuted, Split, Rendered, Executed;
    var i := Common(from, to);
    var ups, rest := Ups(|from| - i), to[i..];
    RelativeNormal(from, to);
    SplitRendered(Relative(from, to));
    AllExecutedConcat(from, ups, rest);
    var there := AllExecuted(from, ups);
    assert to == to[..i] + rest;
    if ".." !in from[i..] {
      UpOverNames(from, i);
      ExecuteAdds(to[..i], rest);
    } else {
      var k :| 0 <= k < |from[i..]| && from[i..][k] == "..";
      assert from[i + k] == ".." && from[i] == "..";
      UpStops(from, i);
      forall j | 0 <= j < |rest|
        ensures Name(rest[j])
      {
        assert rest[j] == to[i + j] && to[i] != "..";
      }
      NamesAdded(there, rest);
    }
  }

  // From "../x" to "y" the way is "../../y", which leads from "../x" to "../../y".
  lemma RelativeMayFail()
    ensures Relative(["..", "x"], ["y"]) == ["..", "..", "y"]
    ensures Joined(["..", "x"], Rendered(Relative(["..", "x"], ["y"]))) != ["y"]
  {
    var from, to := ["..", "x"], ["y"];
    assert Common(from, to) == 0 && from[0..] == from && from[0] == "..";
    RelativeJoined(from, to);
  }

  // ----- The program -----

  class Path {
    var segments: seq<string>
    var text: string
    var isAbsolute: bool

    ghost predicate Valid()
      reads this
    {
      Normal(segments) && text == Text(isAbsolute, segments)
    }

    // `path_new`
    constructor (s: string)
      ensures Valid() && segments == Joined([], s) && isAbsolute == Absolute(s)
    {
      segments, text, isAbsolute := [], "", Absolute(s);
      new;
      if isAbsolute {
        text := "/";
      }
      Join(s);
    }

    // `path_execute`
    method Execute(segment: string)
      modifies this`segments
      ensures segments == Executed(old(segments), segment)
    {
      if segment == "" {
      } else if segment == "." {
      } else if segment == ".." {
        if segments == [] || segments[|segments| - 1] == ".." {
          segments := segments + [segment];
        } else {
          segments := segments[..|segments| - 1];
        }
      } else {
        segments := segments + [segment];
      }
    }

    // `path_update_string`
    method UpdateString()
      modifies this`text
      ensures text == Text(isAbsolute, segments)
    {
      text := if isAbsolute then "/" else "";
      var i := 0;
      while i < |segments|
        invariant i <= |segments|
        invariant text + Rendered(segments[i..]) == Text(isAbsolute, segments)
      {
        ghost var rest := segments[i..];
        assert rest[0] == segments[i] && rest[1..] == segments[i + 1..];
        if i == |segments| - 1 {
          text := text + segments[i];
        } else {
          text := text + segments[i] + "/";
        }
        i := i + 1;
      }
      assert segments[i..] == [];
    }

    // `path_join`
    method Join(s: string)
      requires Normal(segments)
      modifies this`segments, this`text
      ensures Valid() && segments == Joined(old(segments), s)
    {
      JoinedNormal(segments, s);
      var rest := s;
      while rest != ""
        invariant Joined(segments, rest) == Joined(old(segments), s)
        decreases |rest|
      {
        var next := NextSegment(rest);
        Execute(next.0);
        rest := next.1;
      }
      UpdateString();
    }

    // `path_resolve`
    method Resolve(s: string)
      requires Valid()
      modifies this
      ensures Valid()
      ensures if Absolute(s) then isAbsolute && segments == Joined([], s)
              else isAbsolute == old(isAbsolute) && segments == Joined(old(segments), s)
    {
      if Absolute(s) {
        isAbsolute, segments := true, [];
      }
      Join(s);
    }

    // `path_equal`
    predicate Equal(other: Path)
      requires Valid() && other.Valid()
      reads this, other
      ensures Equal(other) <==> isAbsolute == other.isAbsolute && segments == other.segments
    {
      SameText(isAbsolute, segments, other.isAbsolute, other.segments);
      text == other.text
    }

    // `path_copy`
    method Copy() returns (copy: Path)
      requires Valid()
      ensures fresh(copy) && copy.Valid() && copy.segments == segments && copy.isAbsolute == isAbsolute
    {
      Reparse(isAbsolute, segments);
      copy := new Path(text);
    }

    // `find_relative_index`
    method FindRelativeIndex(to: Path) returns (index: nat)
      ensures index == Common(segments, to.segments)
    {
      for i := 0 to |segments|
        invariant i <= |to.segments|
        invariant Common(segments, to.segments) == i + Common(segments[i..], to.segments[i..])
      {
        if i >= |to.segments| {
          return i;
        }
        if segments[i] != to.segments[i] {
          return i;
        }
        assert segments[i..][1..] == segments[i + 1..] && to.segments[i..][1..] == to.segments[i + 1..];
      }
      return |segments|;
    }

    // `path_relative`
    method RelativeTo(to: Path) returns (way: Path)
      requires Valid() && to.Valid() && isAbsolute == to.isAbsolute
      ensures fresh(way) && way.Valid() && !way.isAbsolute && way.segments == Relative(segments, to.segments)
    {
      hide Normal, Joined, Common, Ups, Text;
      JoinedStep([], "");
      var index := FindRelativeIndex(to);
      way := new Path("");
      for i := 0 to |segments| - index
        invariant fresh(way) && !way.isAbsolute && way.segments == Ups(i)
      {
        way.segments := way.segments + [".."];
      }
      ghost var ups := Ups(|segments| - index);
      for i := 0 to |to.segments| - index
        invariant fresh(way) && !way.isAbsolute && way.segments == ups + to.segments[index..index + i]
      {
        way.segments := way.segments + [to.segments[index + i]];
      }
      assert to.segments[index..index + (|to.segments| - index)] == to.segments[index..];
      RelativeNormal(segments, to.segments);
      way.UpdateString();
    }
  }
}
