/**
  Node's `path.join(uploadsDir, filename)` on POSIX. `uploadsDir` is
  `path.join(__dirname, 'uploads')`, an absolute, already normalised path, kept here as its
  list of segments below the root. The file name is split at '/'; empty and "." segments are
  dropped, a ".." removes the segment before it, and at the root a ".." stays at the root
  (Node's `normalizeString` for an absolute path). The result is again a list of segments
  below the root, so two names denote the same file exactly when they resolve to the same list.
*/
module PathJoin {

  /** The '/'-separated segments of `p`, empty ones included: "a//b/" gives a, "", b, "". */
  function Segments(p: string): (segs: seq<string>)
    ensures |segs| >= 1
  {
    if p == [] then [""]
    else
      var rest := Segments(p[1..]);
      if p[0] == '/' then [""] + rest else [[p[0]] + rest[0]] + rest[1..]
  }

  /** A path without '/' is one segment. */
  lemma {:induction false} SegmentsOfPlain(p: string)
    requires '/' !in p
    ensures Segments(p) == [p]
  {
    if p != [] {
      assert '/' !in p[1..] by {
        forall c | c in p[1..] ensures c != '/' { assert c in p; }
      }
      SegmentsOfPlain(p[1..]);
      assert [p[0]] + p[1..] == p;
    }
  }

  /** The first character either starts a new segment ('/') or joins the first one. */
  lemma SegmentsCons(c: char, t: string)
    ensures var rest := Segments(t);
            Segments([c] + t) == if c == '/' then [""] + rest else [[c] + rest[0]] + rest[1..]
  {
    assert ([c] + t)[0] == c && ([c] + t)[1..] == t;
  }

  /** A segment that names an entry: not "", "." or "..". */
  predicate IsName(seg: string)
  {
    seg != "" && seg != "." && seg != ".."
  }

  /** A normalised absolute path: every segment names an entry. */
  predicate Normal(segs: seq<string>)
  {
    forall i :: 0 <= i < |segs| ==> IsName(segs[i])
  }

  /** One step of `normalizeString`: skip "" and ".", let ".." cancel the segment before it. */
  function Push(stack: seq<string>, seg: string): seq<string>
  {
    if seg == "" || seg == "." then stack
    else if seg == ".." then (if stack == [] then [] else stack[..|stack| - 1])
    else stack + [seg]
  }

  /** Feeds `segs` through `Push`, left to right. */
  function PushAll(stack: seq<string>, segs: seq<string>): seq<string>
    decreases |segs|
  {
    if segs == [] then stack else PushAll(Push(stack, segs[0]), segs[1..])
  }

  /** The file `path.join(dir, name)` denotes, for the normalised absolute directory `dir`. */
  function Resolve(dir: seq<string>, name: string): seq<string>
  {
    PushAll(dir, Segments(name))
  }

  lemma PushKeepsNormal(stack: seq<string>, seg: string)
    requires Normal(stack)
    ensures Normal(Push(stack, seg))
  {
    if seg == ".." && stack != [] {
      var s := Push(stack, seg);
      assert forall i :: 0 <= i < |s| ==> s[i] == stack[i];
    }
  }

  lemma {:induction false} PushAllKeepsNormal(stack: seq<string>, segs: seq<string>)
    requires Normal(stack)
    ensures Normal(PushAll(stack, segs))
    decreases |segs|
  {
    if segs != [] {
      PushKeepsNormal(stack, segs[0]);
      PushAllKeepsNormal(Push(stack, segs[0]), segs[1..]);
    }
  }

  /** Whatever the name, the resolved path is normalised: it is the file's one canonical name. */
  lemma ResolveIsNormal(dir: seq<string>, name: string)
    requires Normal(dir)
    ensures Normal(Resolve(dir, name))
  {
    PushAllKeepsNormal(dir, Segments(name));
  }

  /** A name with no '/' that is not "", "." or ".." resolves to an entry directly inside `dir`. */
  lemma ResolvePlain(dir: seq<string>, name: string)
    requires '/' !in name && IsName(name)
    ensures Resolve(dir, name) == dir + [name]
  {
    SegmentsOfPlain(name);
    assert PushAll(dir, [name]) == PushAll(dir + [name], []);
  }

  /** A '/'-free first part is the first segment. */
  lemma {:induction false} SegmentsAfterPlain(a: string, rest: string)
    requires '/' !in a
    ensures Segments(a + "/" + rest) == [a] + Segments(rest)
  {
    if a == [] {
      assert a + "/" + rest == ['/'] + rest;
      SegmentsCons('/', rest);
    } else {
      var c, t := a[0], a[1..];
      assert a == [c] + t && a + "/" + rest == [c] + (t + "/" + rest);
      assert c != '/' && '/' !in t;
      SegmentsAfterPlain(t, rest);
      SegmentsCons(c, t + "/" + rest);
    }
  }

  /** Pushing a name, "..", then `target` leaves `target` inside the starting directory. */
  lemma PushSibling(dir: seq<string>, head: string, target: string)
    requires IsName(head) && IsName(target)
    ensures PushAll(dir, [head, "..", target]) == dir + [target]
  {
    var segs := [head, "..", target];
    assert Push(dir + [head], "..") == dir;
    calc {
      PushAll(dir, segs);
      PushAll(dir + [head], segs[1..]);
      PushAll(dir, segs[2..]);
      PushAll(dir + [target], segs[3..]);
    }
  }

  /** "<head>/../<target>" resolves to `target` inside `dir`, a sibling of `head`. */
  lemma ResolveDotDot(dir: seq<string>, head: string, target: string)
    requires '/' !in head && IsName(head)
    requires '/' !in target && IsName(target)
    ensures Resolve(dir, head + "/../" + target) == dir + [target]
  {
    var tail := ".." + "/" + target;
    assert head + "/../" + target == head + "/" + tail;
    SegmentsAfterPlain(head, tail);
    SegmentsAfterPlain("..", target);
    SegmentsOfPlain(target);
    assert Segments(head + "/../" + target) == [head, "..", target];
    PushSibling(dir, head, target);
  }

  /** Pushing a name, "..", ".." climbs from `parent + [sub]` to `parent`. */
  lemma PushClimb(parent: seq<string>, sub: string, head: string)
    requires IsName(head)
    ensures PushAll(parent + [sub], [head, "..", ".."]) == parent
  {
    var segs := [head, "..", ".."];
    var dir := parent + [sub];
    assert Push(dir + [head], "..") == dir;
    assert Push(dir, "..") == parent;
    calc {
      PushAll(dir, segs);
      PushAll(dir + [head], segs[1..]);
      PushAll(dir, segs[2..]);
      PushAll(parent, segs[3..]);
    }
  }

  /** After `prefix` has been pushed, the remaining segments go on from where it left off. */
  lemma {:induction false} PushAllAppend(stack: seq<string>, prefix: seq<string>, rest: seq<string>)
    ensures PushAll(stack, prefix + rest) == PushAll(PushAll(stack, prefix), rest)
    decreases |prefix|
  {
    if prefix != [] {
      assert (prefix + rest)[0] == prefix[0] && (prefix + rest)[1..] == prefix[1..] + rest;
      PushAllAppend(Push(stack, prefix[0]), prefix[1..], rest);
    } else {
      assert prefix + rest == rest;
    }
  }

  /** "<head>/../../<target>" climbs out of `parent + [sub]`: it resolves to `target` in `parent`. */
  lemma ResolveEscapes(parent: seq<string>, sub: string, head: string, target: string)
    requires '/' !in head && IsName(head)
    requires '/' !in target && IsName(target)
    ensures Resolve(parent + [sub], head + "/../../" + target) == parent + [target]
  {
    var tail := ".." + "/" + target;
    assert head + "/../../" + target == head + "/" + (".." + "/" + tail);
    SegmentsAfterPlain(head, ".." + "/" + tail);
    SegmentsAfterPlain("..", tail);
    SegmentsAfterPlain("..", target);
    SegmentsOfPlain(target);
    assert Segments(head + "/../../" + target) == [head, "..", ".."] + [target];
    PushAllAppend(parent + [sub], [head, "..", ".."], [target]);
    PushClimb(parent, sub, head);
    assert PushAll(parent, [target]) == PushAll(parent + [target], []);
  }

  /** The segments of "<head>/../../<sub>/<target>". */
  lemma SegmentsOfReentry(head: string, sub: string, target: string)
    requires '/' !in head && '/' !in sub && '/' !in target
    ensures Segments(head + "/../../" + sub + "/" + target) == [head, "..", ".."] + [sub, target]
  {
    var tail := sub + "/" + target;
    assert head + "/../../" + sub + "/" + target == head + "/" + (".." + "/" + (".." + "/" + tail));
    SegmentsAfterPlain(head, ".." + "/" + (".." + "/" + tail));
    SegmentsAfterPlain("..", ".." + "/" + tail);
    SegmentsAfterPlain("..", tail);
    SegmentsAfterPlain(sub, target);
    SegmentsOfPlain(target);
  }

  /**
    "<head>/../../<sub>/<target>" climbs out of `parent + [sub]` and back in: it resolves to
    the same file as `target` itself.
  */
  lemma ResolveReenters(parent: seq<string>, sub: string, head: string, target: string)
    requires '/' !in head && IsName(head)
    requires '/' !in sub && IsName(sub)
    requires '/' !in target && IsName(target)
    ensures Resolve(parent + [sub], head + "/../../" + sub + "/" + target) == parent + [sub, target]
  {
    SegmentsOfReentry(head, sub, target);
    PushAllAppend(parent + [sub], [head, "..", ".."], [sub, target]);
    PushClimb(parent, sub, head);
    assert PushAll(parent, [sub, target]) == PushAll(parent + [sub], [target]);
    assert PushAll(parent + [sub], [target]) == PushAll(parent + [sub, target], []);
  }
}
