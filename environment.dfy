/** The environment chain. Each `Environment` owns a map of names and,
    boxed, the environment it encloses; since the whole chain is cloned and
    restored by value, it is modelled as a stack of frames with the
    innermost frame LAST. */
module Env {
  import opened Wrappers
  import opened Values

  type Frames = seq<map<string, Value>>

  /** `Environment::get`: the binding in the innermost frame that has one. */
  function Lookup(frames: Frames, name: string): Option<Value>
  {
    if frames == [] then None
    else if name in frames[|frames| - 1] then Some(frames[|frames| - 1][name])
    else Lookup(frames[..|frames| - 1], name)
  }

  /** `Environment::define`: bind in the innermost frame, overwriting a
      binding of the same name there. */
  function Define(frames: Frames, name: string, value: Value): (r: Frames)
    requires |frames| >= 1
    ensures |r| == |frames| && r[..|r| - 1] == frames[..|frames| - 1]
    ensures r[|r| - 1] == frames[|frames| - 1][name := value]
  {
    frames[..|frames| - 1] + [frames[|frames| - 1][name := value]]
  }

  /** `Environment::assign`: overwrite the binding in the innermost frame
      that has one; `None` (the source's `false`) when no frame does. */
  function Assign(frames: Frames, name: string, value: Value): Option<Frames>
  {
    if frames == [] then None
    else if name in frames[|frames| - 1] then
      Some(frames[..|frames| - 1] + [frames[|frames| - 1][name := value]])
    else match Assign(frames[..|frames| - 1], name, value)
      case None => None
      case Some(outer) => Some(outer + [frames[|frames| - 1]])
  }

  /** `i` is the innermost frame binding `name`. */
  ghost predicate Innermost(frames: Frames, name: string, i: int)
  {
    0 <= i < |frames| && name in frames[i] && forall j :: i < j < |frames| ==> name !in frames[j]
  }

  ghost predicate Bound(frames: Frames, name: string)
  {
    exists i :: 0 <= i < |frames| && name in frames[i]
  }

  /** A name bound somewhere has exactly one innermost binding frame. */
  lemma {:induction false} InnermostExists(frames: Frames, name: string) returns (i: int)
    requires Bound(frames, name)
    ensures Innermost(frames, name, i)
  {
    var n := |frames|;
    if name in frames[n - 1] {
      i := n - 1;
    } else {
      var k :| 0 <= k < n && name in frames[k];
      assert frames[..n - 1][k] == frames[k];
      i := InnermostExists(frames[..n - 1], name);
    }
  }

  /** `get` finds nothing exactly when no frame defines the name. */
  lemma {:induction false} LookupNone(frames: Frames, name: string)
    ensures Lookup(frames, name).None? <==> !Bound(frames, name)
  {
    if frames != [] {
      var n := |frames|;
      LookupNone(frames[..n - 1], name);
      if Bound(frames, name) && name !in frames[n - 1] {
        var k :| 0 <= k < n && name in frames[k];
        assert frames[..n - 1][k] == frames[k];
      }
    }
  }

  /** `get` returns the value of the innermost frame defining the name. */
  lemma {:induction false} LookupFound(frames: Frames, name: string, i: int)
    requires Innermost(frames, name, i)
    ensures Lookup(frames, name) == Some(frames[i][name])
  {
    var n := |frames|;
    if i < n - 1 {
      var outer := frames[..n - 1];
      assert forall j :: i < j < n - 1 ==> outer[j] == frames[j];
      LookupFound(outer, name, i);
    }
  }

  /** `assign` fails exactly when no frame defines the name. */
  lemma {:induction false} AssignNone(frames: Frames, name: string, value: Value)
    ensures Assign(frames, name, value).None? <==> !Bound(frames, name)
  {
    if frames != [] {
      var n := |frames|;
      AssignNone(frames[..n - 1], name, value);
      if Bound(frames, name) && name !in frames[n - 1] {
        var k :| 0 <= k < n && name in frames[k];
        assert frames[..n - 1][k] == frames[k];
      }
    }
  }

  /** A successful `assign` overwrites the binding in the innermost frame
      defining the name, and no other frame changes. */
  lemma {:induction false} AssignFound(frames: Frames, name: string, value: Value, i: int)
    requires Innermost(frames, name, i)
    ensures Assign(frames, name, value) == Some(frames[i := frames[i][name := value]])
  {
    var n := |frames|;
    var outer := frames[..n - 1];
    if i == n - 1 {
      assert outer + [frames[n - 1][name := value]] == frames[i := frames[i][name := value]];
    } else {
      assert forall j :: i < j < n - 1 ==> outer[j] == frames[j];
      AssignFound(outer, name, value, i);
      assert outer[i := outer[i][name := value]] + [frames[n - 1]]
        == frames[i := frames[i][name := value]];
    }
  }

  /** After `define` or a successful `assign`, `get` returns the value
      just stored. */
  lemma {:induction false} LookupAfterWrite(frames: Frames, name: string, value: Value)
    requires |frames| >= 1
    ensures Lookup(Define(frames, name, value), name) == Some(value)
    ensures Assign(frames, name, value).Some? ==>
      Lookup(Assign(frames, name, value).value, name) == Some(value)
  {
    if Assign(frames, name, value).Some? {
      AssignNone(frames, name, value);
      var i := InnermostExists(frames, name);
      AssignFound(frames, name, value, i);
      var r := frames[i := frames[i][name := value]];
      assert Innermost(r, name, i);
      LookupFound(r, name, i);
    }
  }

  /** A definition in an inner frame shadows the outer ones without
      touching them: popping the frame brings the outer binding back. */
  lemma ShadowingIsLocal(frames: Frames, name: string, value: Value)
    ensures Lookup(frames + [map[name := value]], name) == Some(value)
    ensures (frames + [map[name := value]])[..|frames|] == frames
  {
  }

  /** Frames `b` have the same length and the same names in every frame
      as `a`: only values may differ. */
  ghost predicate SameShape(a: Frames, b: Frames)
  {
    |a| == |b| && forall i :: 0 <= i < |a| ==> a[i].Keys == b[i].Keys
  }

  /** `b` is `a` with possibly more names in the innermost frame. */
  ghost predicate Grows(a: Frames, b: Frames)
  {
    |a| == |b| && |a| >= 1
    && (forall i :: 0 <= i < |a| - 1 ==> a[i].Keys == b[i].Keys)
    && a[|a| - 1].Keys <= b[|b| - 1].Keys
  }

  /** `assign` never adds or removes a name. */
  lemma {:induction false} AssignKeepsShape(frames: Frames, name: string, value: Value)
    requires Assign(frames, name, value).Some?
    ensures SameShape(frames, Assign(frames, name, value).value)
  {
    AssignNone(frames, name, value);
    var i := InnermostExists(frames, name);
    AssignFound(frames, name, value, i);
  }

  /** The chain as the interpreter holds it: never empty, since the
      outermost (global) frame is never popped. */
  class Environment {
    var frames: Frames

    ghost predicate Valid()
      reads this
    {
      |frames| >= 1
    }

    /** `Environment::new(None)`, filled with the globals. */
    constructor (globals: map<string, Value>)
      ensures Valid() && frames == [globals]
    {
      frames := [globals];
    }

    method DefineVar(name: string, value: Value)
      requires Valid()
      modifies this
      ensures Valid() && frames == Define(old(frames), name, value)
    {
      frames := Define(frames, name, value);
    }

    function Get(name: string): Option<Value>
      reads this
    {
      Lookup(frames, name)
    }

    method AssignVar(name: string, value: Value) returns (ok: bool)
      requires Valid()
      modifies this
      ensures Valid()
      ensures ok <==> Bound(old(frames), name)
      ensures ok ==> Assign(old(frames), name, value) == Some(frames)
      ensures !ok ==> frames == old(frames)
    {
      AssignNone(frames, name, value);
      match Assign(frames, name, value)
      case None =>
        ok := false;
      case Some(r) =>
        AssignKeepsShape(frames, name, value);
        frames := r;
        ok := true;
    }

    /** `Environment::new(Some(Box::new(previous)))`: a fresh innermost frame. */
    method Enclose()
      requires Valid()
      modifies this
      ensures Valid() && frames == old(frames) + [map[]]
    {
      frames := frames + [map[]];
    }

    /** `*self.environment.enclosing.take().unwrap()`: drop the innermost
        frame, keeping whatever the enclosing frames now hold. */
    method Restore()
      requires |frames| >= 2
      modifies this
      ensures Valid() && frames == old(frames[..|frames| - 1])
    {
      frames := frames[..|frames| - 1];
    }
  }
}
