/**
 * The loop `PathRewriter.execute` and `PathDepPinner._pin_dep_grp` share:
 * each directory dependency found is pinned; a pin that fails with a
 * `RuntimeError` or `ValueError` writes a warning and the loop moves on;
 * any other failure leaves the loop, and the function, at once; a pinned
 * dependency replaces every entry of the group with the original's name.
 */
module GroupRewrite {
  import opened Values
  import opened Dependencies
  import opened Pinning
  import opened Console

  /** The warning written for a dependency that could not be pinned. */
  function WarningLine(name: string): string
  {
    "Could not pin dependency " + name
  }

  /** The group's entries, the console lines, and the error that left the loop, if any. */
  datatype Outcome = Outcome(deps: seq<Dependency>, lines: seq<string>, raised: Option<PinError>)

  /** What the loop makes of the group and the console, from this point on. */
  function Rewrite(deps: seq<Dependency>, lines: seq<string>, todo: seq<DirectoryDependency>,
                   pin: DirectoryDependency -> Result<Dependency, PinError>): (r: Outcome)
    ensures r.raised.Some? ==> !Recoverable(r.raised.value)
    ensures |lines| <= |r.lines| <= |lines| + |todo|
    decreases |todo|
  {
    if todo == [] then Outcome(deps, lines, None)
    else
      match pin(todo[0])
      case Ok(p) => Rewrite(Without(deps, todo[0].name) + [p], lines, todo[1..], pin)
      case Err(e) =>
        if Recoverable(e) then Rewrite(deps, lines + [WarningLine(todo[0].name)], todo[1..], pin)
        else Outcome(deps, lines, Some(e))
  }

  /** The loop over `directory_deps`, rewriting `grp` in place. */
  method PinGroup(grp: DependencyGroup, todo: seq<DirectoryDependency>,
                  pin: DirectoryDependency -> Result<Dependency, PinError>, io: IO)
    returns (raised: Option<PinError>)
    modifies grp, io
    ensures Outcome(grp.dependencies, io.lines, raised) == Rewrite(old(grp.dependencies), old(io.lines), todo, pin)
    ensures grp.poetryDependencies == old(grp.poetryDependencies)
    ensures grp.dependenciesForLocking == old(grp.dependenciesForLocking)
    ensures io.packagesArgument == old(io.packagesArgument)
  {
    var i := 0;
    while i < |todo|
      invariant 0 <= i <= |todo|
      invariant Rewrite(old(grp.dependencies), old(io.lines), todo, pin) == Rewrite(grp.dependencies, io.lines, todo[i..], pin)
      invariant grp.poetryDependencies == old(grp.poetryDependencies)
      invariant grp.dependenciesForLocking == old(grp.dependenciesForLocking)
      invariant io.packagesArgument == old(io.packagesArgument)
    {
      var dependency := todo[i];
      assert todo[i..][1..] == todo[i + 1..];
      var pinned := pin(dependency);
      if pinned.Err? {
        if !Recoverable(pinned.error) {
          return Some(pinned.error);
        }
        io.WriteLine(WarningLine(dependency.name));
      } else {
        grp.RemoveDependency(dependency.name);
        grp.AddDependency(pinned.value);
      }
      i := i + 1;
    }
    raised := None;
  }

  /**
   * When every pin fails with an error the loop catches, the group is left as
   * it was and one warning per dependency is written, in order.
   */
  lemma {:induction false} RewriteAllFail(deps: seq<Dependency>, lines: seq<string>, todo: seq<DirectoryDependency>,
                                          pin: DirectoryDependency -> Result<Dependency, PinError>)
    requires forall k :: 0 <= k < |todo| ==> pin(todo[k]).Err? && Recoverable(pin(todo[k]).error)
    ensures Rewrite(deps, lines, todo, pin).deps == deps
    ensures Rewrite(deps, lines, todo, pin).raised == None
    ensures |Rewrite(deps, lines, todo, pin).lines| == |lines| + |todo|
    ensures forall k :: 0 <= k < |todo| ==> Rewrite(deps, lines, todo, pin).lines[|lines| + k] == WarningLine(todo[k].name)
    decreases |todo|
  {
    if todo != [] {
      var lines' := lines + [WarningLine(todo[0].name)];
      RewriteAllFail(deps, lines', todo[1..], pin);
      RewriteAppendsLines(deps, lines', todo[1..], pin);
      var out := Rewrite(deps, lines', todo[1..], pin);
      forall k | 0 <= k < |todo|
        ensures out.lines[|lines| + k] == WarningLine(todo[k].name)
      {
        if k > 0 {
          assert out.lines[|lines'| + (k - 1)] == WarningLine(todo[1..][k - 1].name);
        } else {
          assert out.lines[..|lines'|][|lines|] == lines'[|lines|];
        }
      }
    }
  }

  /** The lines already written stay; the loop only appends. */
  lemma {:induction false} RewriteAppendsLines(deps: seq<Dependency>, lines: seq<string>, todo: seq<DirectoryDependency>,
                                               pin: DirectoryDependency -> Result<Dependency, PinError>)
    ensures |lines| <= |Rewrite(deps, lines, todo, pin).lines|
    ensures Rewrite(deps, lines, todo, pin).lines[..|lines|] == lines
    decreases |todo|
  {
    if todo != [] {
      match pin(todo[0])
      case Ok(p) =>
        RewriteAppendsLines(Without(deps, todo[0].name) + [p], lines, todo[1..], pin);
      case Err(e) =>
        if Recoverable(e) {
          var lines' := lines + [WarningLine(todo[0].name)];
          RewriteAppendsLines(deps, lines', todo[1..], pin);
          assert Rewrite(deps, lines, todo, pin).lines[..|lines'|][..|lines|] == lines;
        }
    }
  }

  /** An error that leaves the loop is one a pin raised and the loop does not catch. */
  lemma {:induction false} RewriteRaised(deps: seq<Dependency>, lines: seq<string>, todo: seq<DirectoryDependency>,
                                         pin: DirectoryDependency -> Result<Dependency, PinError>)
    ensures Rewrite(deps, lines, todo, pin).raised.Some? <==>
      exists k :: 0 <= k < |todo| && pin(todo[k]).Err? && !Recoverable(pin(todo[k]).error)
    ensures Rewrite(deps, lines, todo, pin).raised.Some? ==>
      !Recoverable(Rewrite(deps, lines, todo, pin).raised.value)
    decreases |todo|
  {
    if todo != [] {
      match pin(todo[0])
      case Ok(p) =>
        RewriteRaised(Without(deps, todo[0].name) + [p], lines, todo[1..], pin);
        RaisedShift(todo, pin);
      case Err(e) =>
        if Recoverable(e) {
          RewriteRaised(deps, lines + [WarningLine(todo[0].name)], todo[1..], pin);
          RaisedShift(todo, pin);
        }
    }
  }

  lemma RaisedShift(todo: seq<DirectoryDependency>, pin: DirectoryDependency -> Result<Dependency, PinError>)
    requires todo != [] && !(pin(todo[0]).Err? && !Recoverable(pin(todo[0]).error))
    ensures (exists k :: 0 <= k < |todo| && pin(todo[k]).Err? && !Recoverable(pin(todo[k]).error)) <==>
            (exists k :: 0 <= k < |todo[1..]| && pin(todo[1..][k]).Err? && !Recoverable(pin(todo[1..][k]).error))
  {
    if exists k :: 0 <= k < |todo| && pin(todo[k]).Err? && !Recoverable(pin(todo[k]).error) {
      var k :| 0 <= k < |todo| && pin(todo[k]).Err? && !Recoverable(pin(todo[k]).error);
      assert todo[1..][k - 1] == todo[k];
    }
  }

  /**
   * An entry whose name no dependency in the list carries is never touched:
   * non-directory dependencies keep their constraints.
   */
  lemma {:induction false} RewriteKeepsOthers(deps: seq<Dependency>, lines: seq<string>, todo: seq<DirectoryDependency>,
                                              pin: DirectoryDependency -> Result<Dependency, PinError>, x: Dependency)
    requires x in deps
    requires forall k :: 0 <= k < |todo| ==> todo[k].name != x.name
    ensures x in Rewrite(deps, lines, todo, pin).deps
    decreases |todo|
  {
    if todo != [] {
      assert todo[0].name != x.name;
      match pin(todo[0])
      case Ok(p) =>
        RewriteKeepsOthers(Without(deps, todo[0].name) + [p], lines, todo[1..], pin, x);
      case Err(e) =>
        if Recoverable(e) {
          RewriteKeepsOthers(deps, lines + [WarningLine(todo[0].name)], todo[1..], pin, x);
        }
    }
  }

  /**
   * A pinned dependency stays in the group unless a later dependency in the
   * list has its name; so when every pin succeeds or is caught, each
   * successful pin's result ends up in the group.
   */
  lemma {:induction false} RewriteAddsPinned(deps: seq<Dependency>, lines: seq<string>, todo: seq<DirectoryDependency>,
                                             pin: DirectoryDependency -> Result<Dependency, PinError>, k: nat)
    requires k < |todo| && pin(todo[k]).Ok?
    requires forall j :: 0 <= j < |todo| && pin(todo[j]).Err? ==> Recoverable(pin(todo[j]).error)
    requires forall j :: k < j < |todo| ==> todo[j].name != pin(todo[k]).value.name
    ensures Rewrite(deps, lines, todo, pin).raised == None
    ensures pin(todo[k]).value in Rewrite(deps, lines, todo, pin).deps
    decreases |todo|
  {
    var rest := todo[1..];
    var deps', lines' := deps, lines;
    if pin(todo[0]).Ok? {
      deps' := Without(deps, todo[0].name) + [pin(todo[0]).value];
    } else {
      assert Recoverable(pin(todo[0]).error);
      lines' := lines + [WarningLine(todo[0].name)];
    }
    assert Rewrite(deps, lines, todo, pin) == Rewrite(deps', lines', rest, pin);
    assert forall j :: 0 <= j < |rest| ==> rest[j] == todo[j + 1];
    if k == 0 {
      NoneRaised(deps', lines', rest, pin);
      RewriteKeepsOthers(deps', lines', rest, pin, pin(todo[0]).value);
    } else {
      assert rest[k - 1] == todo[k];
      RewriteAddsPinned(deps', lines', rest, pin, k - 1);
    }
  }

  lemma {:induction false} NoneRaised(deps: seq<Dependency>, lines: seq<string>, todo: seq<DirectoryDependency>,
                                      pin: DirectoryDependency -> Result<Dependency, PinError>)
    requires forall j :: 0 <= j < |todo| && pin(todo[j]).Err? ==> Recoverable(pin(todo[j]).error)
    ensures Rewrite(deps, lines, todo, pin).raised == None
  {
    RewriteRaised(deps, lines, todo, pin);
  }

  /**
   * When the list names distinct dependencies that each occur once in the
   * group and the pins keep names, the group keeps its size.
   */
  lemma {:induction false} RewriteKeepsSize(deps: seq<Dependency>, lines: seq<string>, todo: seq<DirectoryDependency>,
                                            pin: DirectoryDependency -> Result<Dependency, PinError>)
    requires forall i, j :: 0 <= i < j < |todo| ==> todo[i].name != todo[j].name
    requires forall k :: 0 <= k < |todo| ==> Count(deps, todo[k].name) == 1
    requires forall k :: 0 <= k < |todo| && pin(todo[k]).Ok? ==> pin(todo[k]).value.name == todo[k].name
    ensures |Rewrite(deps, lines, todo, pin).deps| == |deps|
    decreases |todo|
  {
    if todo != [] {
      var n := todo[0].name;
      var rest := todo[1..];
      match pin(todo[0])
      case Ok(p) =>
        var deps' := Without(deps, n) + [p];
        forall k | 0 <= k < |rest| ensures Count(deps', rest[k].name) == 1 {
          assert rest[k] == todo[k + 1];
          WithoutCountOther(deps, n, rest[k].name);
          CountAppend(Without(deps, n), [p], rest[k].name);
          assert Count([p], rest[k].name) == 0;
        }
        RewriteKeepsSize(deps', lines, rest, pin);
      case Err(e) =>
        if Recoverable(e) {
          RewriteKeepsSize(deps, lines + [WarningLine(n)], rest, pin);
        }
    }
  }

  /**
   * The error that leaves the loop is the error of the first dependency
   * whose pin fails with an error the loop does not catch.
   */
  lemma {:induction false} RewriteRaisedFirst(deps: seq<Dependency>, lines: seq<string>, todo: seq<DirectoryDependency>,
                                              pin: DirectoryDependency -> Result<Dependency, PinError>)
    ensures var raised := Rewrite(deps, lines, todo, pin).raised;
      raised.Some? ==>
        exists k :: 0 <= k < |todo| && pin(todo[k]).Err? && pin(todo[k]).error == raised.value &&
          forall j :: 0 <= j < k ==> !(pin(todo[j]).Err? && !Recoverable(pin(todo[j]).error))
    decreases |todo|
  {
    if todo != [] {
      var raised := Rewrite(deps, lines, todo, pin).raised;
      var rest := todo[1..];
      var deps', lines' := deps, lines;
      if pin(todo[0]).Err? && !Recoverable(pin(todo[0]).error) {
        assert raised == Some(pin(todo[0]).error);
        return;
      }
      if pin(todo[0]).Ok? {
        deps' := Without(deps, todo[0].name) + [pin(todo[0]).value];
      } else {
        lines' := lines + [WarningLine(todo[0].name)];
      }
      assert Rewrite(deps, lines, todo, pin) == Rewrite(deps', lines', rest, pin);
      RewriteRaisedFirst(deps', lines', rest, pin);
      if raised.Some? {
        var k :| 0 <= k < |rest| && pin(rest[k]).Err? && pin(rest[k]).error == raised.value &&
          forall j :: 0 <= j < k ==> !(pin(rest[j]).Err? && !Recoverable(pin(rest[j]).error));
        assert rest[k] == todo[k + 1];
        forall j | 0 <= j < k + 1
          ensures !(pin(todo[j]).Err? && !Recoverable(pin(todo[j]).error))
        {
          if j > 0 {
            assert todo[j] == rest[j - 1];
          }
        }
      }
    }
  }

  /** The warnings written, in order, for dependencies whose pins all fail with caught errors. */
  function Warnings(skipped: seq<DirectoryDependency>): (r: seq<string>)
    ensures |r| == |skipped|
    ensures forall k :: 0 <= k < |skipped| ==> r[k] == WarningLine(skipped[k].name)
  {
    if skipped == [] then [] else [WarningLine(skipped[0].name)] + Warnings(skipped[1..])
  }

  /** One step of the loop over a dependency whose pin fails with a caught error. */
  lemma RewriteCaughtHead(deps: seq<Dependency>, lines: seq<string>, todo: seq<DirectoryDependency>,
                          pin: DirectoryDependency -> Result<Dependency, PinError>)
    requires todo != [] && pin(todo[0]).Err? && Recoverable(pin(todo[0]).error)
    ensures Rewrite(deps, lines, todo, pin) == Rewrite(deps, lines + [WarningLine(todo[0].name)], todo[1..], pin)
  {
  }

  lemma {:induction false} WarningsCons(lines: seq<string>, skipped: seq<DirectoryDependency>)
    requires skipped != []
    ensures lines + Warnings(skipped) == (lines + [WarningLine(skipped[0].name)]) + Warnings(skipped[1..])
  {
    assert Warnings(skipped) == [WarningLine(skipped[0].name)] + Warnings(skipped[1..]);
  }

  /**
   * Dependencies whose pins fail with caught errors only add their warnings:
   * the loop then goes on with the rest of the list as if they were absent.
   */
  lemma {:induction false} RewriteSkipsCaught(deps: seq<Dependency>, lines: seq<string>, skipped: seq<DirectoryDependency>,
                                              rest: seq<DirectoryDependency>,
                                              pin: DirectoryDependency -> Result<Dependency, PinError>)
    requires forall k :: 0 <= k < |skipped| ==> pin(skipped[k]).Err? && Recoverable(pin(skipped[k]).error)
    ensures Rewrite(deps, lines, skipped + rest, pin) == Rewrite(deps, lines + Warnings(skipped), rest, pin)
    decreases |skipped|
  {
    if skipped == [] {
      assert skipped + rest == rest && lines + Warnings(skipped) == lines;
    } else {
      var head, tail := skipped[0], skipped[1..];
      var todo := skipped + rest;
      assert todo[0] == head && todo[1..] == tail + rest;
      RewriteCaughtHead(deps, lines, todo, pin);
      forall k | 0 <= k < |tail| ensures pin(tail[k]).Err? && Recoverable(pin(tail[k]).error) {
        assert tail[k] == skipped[k + 1];
      }
      RewriteSkipsCaught(deps, lines + [WarningLine(head.name)], tail, rest, pin);
      WarningsCons(lines, skipped);
    }
  }

  /** What the loop does to the group, and the error it ends with, do not depend on the lines already written. */
  lemma {:induction false} RewriteIgnoresLines(deps: seq<Dependency>, lines: seq<string>, lines': seq<string>,
                                               todo: seq<DirectoryDependency>,
                                               pin: DirectoryDependency -> Result<Dependency, PinError>)
    ensures Rewrite(deps, lines, todo, pin).deps == Rewrite(deps, lines', todo, pin).deps
    ensures Rewrite(deps, lines, todo, pin).raised == Rewrite(deps, lines', todo, pin).raised
    decreases |todo|
  {
    if todo != [] {
      match pin(todo[0])
      case Ok(p) =>
        RewriteIgnoresLines(Without(deps, todo[0].name) + [p], lines, lines', todo[1..], pin);
      case Err(e) =>
        if Recoverable(e) {
          RewriteIgnoresLines(deps, lines + [WarningLine(todo[0].name)], lines' + [WarningLine(todo[0].name)],
                              todo[1..], pin);
        }
    }
  }
}
