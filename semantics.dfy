/**
 * What `addAllAssetsToCompilation` does to the state it mutates, as
 * functions: `resolveOutput` on the asset table, one `addFileToAssets`
 * step, and the default export's ordered run over all descriptors. The
 * imperative model in module AddAssets is proved against these.
 */
module Semantics {
  import opened Types
  import opened Paths

  /**
   * Everything the module mutates: `compilation.assets`,
   * `compilation.errors` and the per-type lists of `htmlPluginData.assets`.
   */
  datatype State = State(table: AssetTable, errors: seq<Error>, lists: map<string, seq<string>>)

  datatype Outcome = Pass | Fail(error: Error)

  datatype StepResult = StepResult(outcome: Outcome, state: State)

  /** The value JavaScript reads at `table[key]`. */
  function Lookup(table: AssetTable, key: string): AssetValue {
    if key in table then table[key] else NoAsset
  }

  /** The key `resolveOutput` moves an entry to. */
  function Destination(outputPath: string, name: string): (r: string)
    ensures |r| > |name| && r != name
  {
    outputPath + "/" + name
  }

  /** Distinct names are moved to distinct keys. */
  lemma DestinationInjective(outputPath: string, a: string, b: string)
    ensures Destination(outputPath, a) == Destination(outputPath, b) ==> a == b
  {
    if Destination(outputPath, a) == Destination(outputPath, b) {
      assert Destination(outputPath, a)[|outputPath| + 1..] == a;
      assert Destination(outputPath, b)[|outputPath| + 1..] == b;
    }
  }

  /**
   * `resolveOutput`: with a non-empty output path the entry at `name` moves
   * to `outputPath/name` (an absent entry arrives as `undefined`) and `name`
   * disappears; every other key keeps its value. Otherwise nothing changes.
   */
  function Relocate(table: AssetTable, name: string, outputPath: Nullable): (r: AssetTable)
    ensures !NonEmpty(outputPath) ==> r == table
    ensures NonEmpty(outputPath) ==>
              var dest := Destination(outputPath.value, name);
              && name !in r
              && dest in r && r[dest] == Lookup(table, name)
              && r.Keys == table.Keys - {name} + {dest}
              && forall k :: k in table && k != name && k != dest ==> r[k] == table[k]
  {
    if NonEmpty(outputPath) then
      var dest := Destination(outputPath.value, name);
      table[dest := Lookup(table, name)] - {name}
    else
      table
  }

  /** Relocating an entry to a free key neither loses nor creates an entry. */
  lemma RelocateKeepsSize(table: AssetTable, name: string, outputPath: Nullable)
    requires name in table
    requires NonEmpty(outputPath) ==> Destination(outputPath.value, name) !in table
    ensures |Relocate(table, name, outputPath)| == |table|
  {
    if NonEmpty(outputPath) {
      var dest := Destination(outputPath.value, name);
      var r := Relocate(table, name, outputPath);
      assert r.Keys == table.Keys - {name} + {dest};
      assert |table.Keys - {name}| == |table| - 1;
    }
  }

  /**
   * The public path a descriptor contributes, when its file path is present
   * and the host accepts the file.
   */
  function PathOf(configured: Nullable, h: Host, d: AssetDescriptor): Option<string> {
    if !NonEmpty(d.filepath) then None
    else match h.addFileToAssets(d.filepath.value)
      case Rejected(_) => None
      case Registered(name, source) => Some(ResolvedPath(configured, h, d, name, source))
  }

  /**
   * The per-type lists after a descriptor's path is `unshift`ed: the path
   * becomes the first element of its type's list, the old elements follow in
   * order, and the other lists stay as they were. Without a path, or without
   * a list for the type, nothing changes.
   */
  function WithPath(lists: map<string, seq<string>>, configured: Nullable, h: Host, d: AssetDescriptor)
    : (r: map<string, seq<string>>)
    ensures r.Keys == lists.Keys
    ensures forall t :: t in lists && t != TypeKey(d) ==> r[t] == lists[t]
    ensures PathOf(configured, h, d).None? || TypeKey(d) !in lists ==> r == lists
    ensures PathOf(configured, h, d).Some? && TypeKey(d) in lists ==>
              var l := r[TypeKey(d)];
              |l| == |lists[TypeKey(d)]| + 1 && l[0] == PathOf(configured, h, d).value
              && l[1..] == lists[TypeKey(d)]
  {
    var key := TypeKey(d);
    match PathOf(configured, h, d)
    case Some(p) => if key in lists then lists[key := [p] + lists[key]] else lists
    case None => lists
  }

  /** The conditions under which one `addFileToAssets` step succeeds. */
  predicate StepSucceeds(h: Host, lists: map<string, seq<string>>, d: AssetDescriptor) {
    && NonEmpty(d.filepath)
    && h.addFileToAssets(d.filepath.value).Registered?
    && TypeKey(d) in lists
    && (IncludeSourcemap(d) ==> h.addFileToAssets(d.filepath.value + ".map").Registered?)
  }

  /**
   * One `addFileToAssets` step, in the source's order: validate the file
   * path (recording the error), register the file, build its public path,
   * prepend it to its type's list, relocate the entry, then register and
   * relocate the sourcemap. A failure keeps whatever was already done.
   */
  function Step(configured: Nullable, h: Host, s: State, d: AssetDescriptor): (r: StepResult)
    ensures r.outcome.Pass? <==> StepSucceeds(h, s.lists, d)
    ensures r.state.errors == s.errors + (if NonEmpty(d.filepath) then [] else [NoFilepath])
    ensures !NonEmpty(d.filepath) ==>
              r.outcome == Fail(NoFilepath) && r.state.table == s.table && r.state.lists == s.lists
    ensures r.outcome == Fail(NoFilepath) ==> !NonEmpty(d.filepath)
    ensures NonEmpty(d.filepath) && h.addFileToAssets(d.filepath.value).Rejected? ==>
              r == StepResult(Fail(HostError(h.addFileToAssets(d.filepath.value).reason)), s)
    ensures r.state.lists == WithPath(s.lists, configured, h, d)
    ensures NonEmpty(d.filepath) && h.addFileToAssets(d.filepath.value).Registered? && TypeKey(d) !in s.lists ==>
              var reg := h.addFileToAssets(d.filepath.value);
              r.outcome == Fail(NotAList(TypeKey(d))) && r.state.table == s.table[reg.name := Asset(reg.source)]
    ensures NonEmpty(d.filepath) && h.addFileToAssets(d.filepath.value).Registered? && TypeKey(d) in s.lists
            && IncludeSourcemap(d) && h.addFileToAssets(d.filepath.value + ".map").Rejected? ==>
              var reg := h.addFileToAssets(d.filepath.value);
              var mapReg := h.addFileToAssets(d.filepath.value + ".map");
              r.outcome == Fail(HostError(mapReg.reason))
              && r.state.table == Relocate(s.table[reg.name := Asset(reg.source)], reg.name, d.outputPath)
  {
    if !NonEmpty(d.filepath) then
      StepResult(Fail(NoFilepath), s.(errors := s.errors + [NoFilepath]))
    else
      var filepath := d.filepath.value;
      match h.addFileToAssets(filepath)
      case Rejected(why) => StepResult(Fail(HostError(why)), s)
      case Registered(name, source) =>
        var table1 := s.table[name := Asset(source)];
        var key := TypeKey(d);
        if key !in s.lists then
          StepResult(Fail(NotAList(key)), s.(table := table1))
        else
          var lists := s.lists[key := [ResolvedPath(configured, h, d, name, source)] + s.lists[key]];
          var table2 := Relocate(table1, name, d.outputPath);
          if !IncludeSourcemap(d) then
            StepResult(Pass, State(table2, s.errors, lists))
          else
            match h.addFileToAssets(filepath + ".map")
            case Rejected(why) => StepResult(Fail(HostError(why)), State(table2, s.errors, lists))
            case Registered(mapName, mapSource) =>
              var table3 := Relocate(table2[mapName := Asset(mapSource)], mapName, d.outputPath);
              StepResult(Pass, State(table3, s.errors, lists))
  }

  /**
   * Where a successful step leaves the registered file and its sourcemap:
   * under `outputPath/name` (the bare name removed) when an output path is
   * given, under the bare name otherwise. The sourcemap is registered last,
   * so the file's own entry is only promised when the sourcemap's name does
   * not collide with it.
   */
  lemma StepPlacesAssets(configured: Nullable, h: Host, s: State, d: AssetDescriptor)
    requires Step(configured, h, s, d).outcome.Pass?
    ensures var t := Step(configured, h, s, d).state.table;
            var reg := h.addFileToAssets(d.filepath.value);
            var mapReg := h.addFileToAssets(d.filepath.value + ".map");
            && (NonEmpty(d.outputPath) ==>
                  && (!IncludeSourcemap(d) || (mapReg.name != reg.name && mapReg.name != Destination(d.outputPath.value, reg.name)
                                                   && reg.name != Destination(d.outputPath.value, mapReg.name)) ==>
                        reg.name !in t && Lookup(t, Destination(d.outputPath.value, reg.name)) == Asset(reg.source))
                  && (IncludeSourcemap(d) ==>
                        mapReg.name !in t && Lookup(t, Destination(d.outputPath.value, mapReg.name)) == Asset(mapReg.source)))
            && (!NonEmpty(d.outputPath) ==>
                  && (!IncludeSourcemap(d) || mapReg.name != reg.name ==> Lookup(t, reg.name) == Asset(reg.source))
                  && (IncludeSourcemap(d) ==> Lookup(t, mapReg.name) == Asset(mapReg.source)))
  {
    var reg := h.addFileToAssets(d.filepath.value);
    var table1 := s.table[reg.name := Asset(reg.source)];
    var table2 := Relocate(table1, reg.name, d.outputPath);
    if IncludeSourcemap(d) {
      var mapReg := h.addFileToAssets(d.filepath.value + ".map");
      if NonEmpty(d.outputPath) {
        DestinationInjective(d.outputPath.value, reg.name, mapReg.name);
      }
      assert Step(configured, h, s, d).state.table
          == Relocate(table2[mapReg.name := Asset(mapReg.source)], mapReg.name, d.outputPath);
    } else {
      assert Step(configured, h, s, d).state.table == table2;
    }
  }

  /** The keys a step may write: the two registered names and, with an output path, their destinations. */
  predicate Touched(h: Host, d: AssetDescriptor, k: string)
    requires NonEmpty(d.filepath)
  {
    var reg := h.addFileToAssets(d.filepath.value);
    var mapReg := h.addFileToAssets(d.filepath.value + ".map");
    || (reg.Registered? && k == reg.name)
    || (reg.Registered? && NonEmpty(d.outputPath) && k == Destination(d.outputPath.value, reg.name))
    || (IncludeSourcemap(d) && mapReg.Registered? && k == mapReg.name)
    || (IncludeSourcemap(d) && mapReg.Registered? && NonEmpty(d.outputPath)
        && k == Destination(d.outputPath.value, mapReg.name))
  }

  /** A successful step leaves every asset-table key it does not write exactly as it was. */
  lemma StepKeepsOtherEntries(configured: Nullable, h: Host, s: State, d: AssetDescriptor, k: string)
    requires Step(configured, h, s, d).outcome.Pass?
    requires !Touched(h, d, k)
    ensures var t := Step(configured, h, s, d).state.table;
            (k in t <==> k in s.table) && (k in t ==> t[k] == s.table[k])
  {
    var reg := h.addFileToAssets(d.filepath.value);
    var table1 := s.table[reg.name := Asset(reg.source)];
    var table2 := Relocate(table1, reg.name, d.outputPath);
    assert (k in table2 <==> k in s.table) && (k in table2 ==> table2[k] == s.table[k]);
    if IncludeSourcemap(d) {
      var mapReg := h.addFileToAssets(d.filepath.value + ".map");
      var table3 := Relocate(table2[mapReg.name := Asset(mapReg.source)], mapReg.name, d.outputPath);
      assert Step(configured, h, s, d).state.table == table3;
    } else {
      assert Step(configured, h, s, d).state.table == table2;
    }
  }

  /**
   * The default export: the steps run strictly in order and the first
   * failure ends the run, carrying its error and the state reached so far.
   */
  function Run(configured: Nullable, h: Host, s: State, ds: seq<AssetDescriptor>): (r: StepResult)
    ensures r.state.errors == s.errors + (if r.outcome == Fail(NoFilepath) then [NoFilepath] else [])
    ensures r.state.lists.Keys == s.lists.Keys
    decreases |ds|
  {
    if ds == [] then StepResult(Pass, s)
    else
      var first := Step(configured, h, s, ds[0]);
      if first.outcome.Fail? then first else Run(configured, h, first.state, ds[1..])
  }

  /** Running two lists of descriptors one after the other is running their concatenation. */
  lemma {:induction false} RunAppend(configured: Nullable, h: Host, s: State, ds: seq<AssetDescriptor>, es: seq<AssetDescriptor>)
    ensures var r := Run(configured, h, s, ds);
            Run(configured, h, s, ds + es) == if r.outcome.Pass? then Run(configured, h, r.state, es) else r
    decreases |ds|
  {
    if ds == [] {
      assert ds + es == es;
    } else {
      assert (ds + es)[0] == ds[0];
      assert (ds + es)[1..] == ds[1..] + es;
      var first := Step(configured, h, s, ds[0]);
      if first.outcome.Pass? {
        RunAppend(configured, h, first.state, ds[1..], es);
      }
    }
  }

  /**
   * A failed run failed at one descriptor: every descriptor before it
   * succeeded, its own step produced the reported error and the final
   * state, and nothing after it was looked at.
   */
  lemma {:induction false} RunFailsAt(configured: Nullable, h: Host, s: State, ds: seq<AssetDescriptor>)
    returns (k: nat)
    requires Run(configured, h, s, ds).outcome.Fail?
    ensures k < |ds|
    ensures Run(configured, h, s, ds[..k]).outcome.Pass?
    ensures Step(configured, h, Run(configured, h, s, ds[..k]).state, ds[k]) == Run(configured, h, s, ds)
    decreases |ds|
  {
    var first := Step(configured, h, s, ds[0]);
    if first.outcome.Fail? {
      k := 0;
      assert ds[..1] == [ds[0]];
      assert Run(configured, h, s, ds[..0]) == StepResult(Pass, s) by { assert ds[..0] == []; }
    } else {
      var j := RunFailsAt(configured, h, first.state, ds[1..]);
      k := j + 1;
      assert ds[..k][0] == ds[0] && ds[..k][1..] == ds[1..][..j];
      assert Run(configured, h, s, ds[..k]) == Run(configured, h, first.state, ds[1..][..j]);
    }
  }

  /** How many descriptors ask for the list of type `t`. */
  function CountOfType(ds: seq<AssetDescriptor>, t: string): nat {
    if ds == [] then 0 else CountOfType(ds[1..], t) + (if TypeKey(ds[0]) == t then 1 else 0)
  }

  /**
   * The paths of the descriptors of type `t`, last descriptor first: what
   * repeated prepending puts in front of the list.
   */
  function Prepended(configured: Nullable, h: Host, ds: seq<AssetDescriptor>, t: string): seq<string> {
    if ds == [] then []
    else
      var p := PathOf(configured, h, ds[0]);
      Prepended(configured, h, ds[1..], t) + (if TypeKey(ds[0]) == t && p.Some? then [p.value] else [])
  }

  /**
   * After a run in which every step succeeded, each type's list holds the
   * paths of that type's descriptors in reverse input order, one per
   * descriptor, in front of its original contents.
   */
  lemma {:induction false} RunPrependsInReverse(configured: Nullable, h: Host, s: State, ds: seq<AssetDescriptor>, t: string)
    requires Run(configured, h, s, ds).outcome.Pass?
    requires t in s.lists
    ensures t in Run(configured, h, s, ds).state.lists
    ensures Run(configured, h, s, ds).state.lists[t] == Prepended(configured, h, ds, t) + s.lists[t]
    ensures |Prepended(configured, h, ds, t)| == CountOfType(ds, t)
    decreases |ds|
  {
    if ds != [] {
      var first := Step(configured, h, s, ds[0]);
      assert first.outcome.Pass? && Run(configured, h, s, ds) == Run(configured, h, first.state, ds[1..]);
      RunPrependsInReverse(configured, h, first.state, ds[1..], t);
      StepListFor(configured, h, s, ds[0], t);
      var tail := Prepended(configured, h, ds[1..], t);
      var head := Prepended(configured, h, ds, t)[|tail|..];
      assert Prepended(configured, h, ds, t) == tail + head;
      assert first.state.lists[t] == head + s.lists[t];
      AppendAssociative(tail, head, s.lists[t]);
    }
  }

  /** Regrouping a concatenation; a separate lemma keeps the proof above small. */
  lemma AppendAssociative(a: seq<string>, b: seq<string>, c: seq<string>)
    ensures a + b + c == a + (b + c)
  {
  }

  /** What one successful step puts in front of the list of type `t`. */
  lemma StepListFor(configured: Nullable, h: Host, s: State, d: AssetDescriptor, t: string)
    requires Step(configured, h, s, d).outcome.Pass?
    requires t in s.lists
    ensures PathOf(configured, h, d).Some?
    ensures var p := PathOf(configured, h, d).value;
            Step(configured, h, s, d).state.lists[t] ==
              (if TypeKey(d) == t then [p] else []) + s.lists[t]
  {
    var r := WithPath(s.lists, configured, h, d);
    var p := PathOf(configured, h, d).value;
    if TypeKey(d) == t {
      assert r[t] == [p] + s.lists[t];
    }
  }

  /** In a successful run the descriptors' paths all end up in the list of their type. */
  lemma RunListsAllPaths(configured: Nullable, h: Host, s: State, ds: seq<AssetDescriptor>, i: nat)
    requires Run(configured, h, s, ds).outcome.Pass?
    requires i < |ds|
    ensures TypeKey(ds[i]) in Run(configured, h, s, ds).state.lists
    ensures PathOf(configured, h, ds[i]).Some?
    ensures PathOf(configured, h, ds[i]).value in Run(configured, h, s, ds).state.lists[TypeKey(ds[i])]
  {
    var t := TypeKey(ds[i]);
    PrependedHas(configured, h, s, ds, i);
    RunPrependsInReverse(configured, h, s, ds, t);
  }

  /** In a successful run every descriptor's type has a list, and its path is among those prepended to it. */
  lemma {:induction false} PrependedHas(configured: Nullable, h: Host, s: State, ds: seq<AssetDescriptor>, i: nat)
    requires Run(configured, h, s, ds).outcome.Pass?
    requires i < |ds|
    ensures TypeKey(ds[i]) in s.lists
    ensures PathOf(configured, h, ds[i]).Some?
    ensures PathOf(configured, h, ds[i]).value in Prepended(configured, h, ds, TypeKey(ds[i]))
    decreases |ds|
  {
    var first := Step(configured, h, s, ds[0]);
    if i > 0 {
      assert ds[1..][i - 1] == ds[i];
      PrependedHas(configured, h, first.state, ds[1..], i - 1);
      assert first.state.lists.Keys == s.lists.Keys;
    }
  }
}
