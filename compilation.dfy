/**
 * `addAllAssetsToCompilation` as the source writes it: the bundler's
 * compilation object and the HTML plugin's data object are mutated in place
 * by `resolveOutput`, `addFileToAssets` and the default export's ordered
 * loop. Each method is proved to do what module Semantics says.
 */
module AddAssets {
  import opened Types
  import opened Paths
  import opened Semantics

  /** The part of the bundler's compilation object the module reads and writes. */
  class Compilation {
    var assets: AssetTable
    var errors: seq<Error>
    /** `options.output.publicPath`. */
    const publicPath: Nullable

    constructor (publicPath: Nullable, assets: AssetTable, errors: seq<Error>)
      ensures this.publicPath == publicPath && this.assets == assets && this.errors == errors
    {
      this.publicPath := publicPath;
      this.assets := assets;
      this.errors := errors;
    }
  }

  /** The HTML plugin's data object: the lists of public paths, by asset type. */
  class HtmlPluginData {
    var assets: map<string, seq<string>>

    constructor (assets: map<string, seq<string>>)
      ensures this.assets == assets
    {
      this.assets := assets;
    }
  }

  /** The state both objects hold together. */
  function Snapshot(compilation: Compilation, data: HtmlPluginData): State
    reads compilation, data
  {
    State(compilation.assets, compilation.errors, data.assets)
  }

  /** `resolveOutput`: move the entry at `addedFilename` under `outputPath`. */
  method ResolveOutput(compilation: Compilation, addedFilename: string, outputPath: Nullable)
    modifies compilation`assets
    ensures compilation.assets == Relocate(old(compilation.assets), addedFilename, outputPath)
  {
    if NonEmpty(outputPath) {
      var dest := Destination(outputPath.value, addedFilename);
      compilation.assets := compilation.assets[dest := Lookup(compilation.assets, addedFilename)];
      compilation.assets := compilation.assets - {addedFilename};
    }
  }

  /**
   * The host plugin's `addFileToAssets`: on success the file's content is
   * stored in the asset table under the name the host returns.
   */
  method HostAddFileToAssets(h: Host, filepath: string, compilation: Compilation) returns (reg: Registration)
    modifies compilation`assets
    ensures reg == h.addFileToAssets(filepath)
    ensures compilation.assets ==
              if reg.Registered? then old(compilation.assets)[reg.name := Asset(reg.source)]
              else old(compilation.assets)
  {
    reg := h.addFileToAssets(filepath);
    if reg.Registered? {
      compilation.assets := compilation.assets[reg.name := Asset(reg.source)];
    }
  }

  /** `addFileToAssets`: inject one asset descriptor. */
  method AddFileToAssets(compilation: Compilation, data: HtmlPluginData, h: Host, asset: AssetDescriptor)
    returns (outcome: Outcome)
    modifies compilation`assets, compilation`errors, data`assets
    ensures var r := Step(compilation.publicPath, h, old(Snapshot(compilation, data)), asset);
            outcome == r.outcome && Snapshot(compilation, data) == r.state
  {
    if !NonEmpty(asset.filepath) {
      compilation.errors := compilation.errors + [NoFilepath];
      return Fail(NoFilepath);
    }
    var filepath := asset.filepath.value;

    var added := HostAddFileToAssets(h, filepath, compilation);
    if added.Rejected? {
      return Fail(HostError(added.reason));
    }
    var addedFilename := added.name;

    var suffix := "";
    if Hashed(asset) {
      suffix := "?" + Take(h.md5Hex(compilation.assets[addedFilename].source), 20);
    }

    var resolvedPublicPath :=
      if asset.publicPath.Undefined? then ResolvePublicPath(compilation.publicPath, addedFilename, h)
      else EnsureTrailingSlash(asset.publicPath);
    var resolvedPath := resolvedPublicPath + addedFilename + suffix;

    var typeOfAsset := TypeKey(asset);
    if typeOfAsset !in data.assets {
      return Fail(NotAList(typeOfAsset));
    }
    data.assets := data.assets[typeOfAsset := [resolvedPath] + data.assets[typeOfAsset]];

    ResolveOutput(compilation, addedFilename, asset.outputPath);

    if IncludeSourcemap(asset) {
      var addedMap := HostAddFileToAssets(h, filepath + ".map", compilation);
      if addedMap.Rejected? {
        return Fail(HostError(addedMap.reason));
      }
      ResolveOutput(compilation, addedMap.name, asset.outputPath);
    }
    return Pass;
  }

  /**
   * The default export: inject the descriptors one after the other, stop at
   * the first failure, and hand the error (if any) and the same data object
   * to the callback, here the two results.
   */
  method AddAllAssetsToCompilation(assets: seq<AssetDescriptor>, compilation: Compilation, data: HtmlPluginData, h: Host)
    returns (error: Option<Error>, result: HtmlPluginData)
    modifies compilation`assets, compilation`errors, data`assets
    ensures result == data
    ensures var r := Run(compilation.publicPath, h, old(Snapshot(compilation, data)), assets);
            Snapshot(compilation, data) == r.state
            && error == if r.outcome.Fail? then Some(r.outcome.error) else None
  {
    ghost var start := Snapshot(compilation, data);
    var i := 0;
    while i < |assets|
      invariant i <= |assets|
      invariant Run(compilation.publicPath, h, Snapshot(compilation, data), assets[i..])
             == Run(compilation.publicPath, h, start, assets)
    {
      assert assets[i..][0] == assets[i] && assets[i..][1..] == assets[i + 1..];
      var outcome := AddFileToAssets(compilation, data, h, assets[i]);
      if outcome.Fail? {
        return Some(outcome.error), data;
      }
      i := i + 1;
    }
    assert assets[i..] == [];
    return None, data;
  }
}
