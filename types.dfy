/**
 * Values shared by the model of `addAllAssetsToCompilation`: the JavaScript
 * values an asset descriptor is made of, the entries of the bundler's asset
 * table, the errors the module can report, and the collaborators it calls
 * but whose code is not part of this model.
 */
module Types {

  datatype Option<T> = None | Some(value: T)

  /** A JavaScript value of Flow type `?string`: `undefined`, `null` or a string. */
  datatype Nullable = Undefined | Null | Str(value: string)

  /** JavaScript truthiness of a `?string`: a string that is not empty. */
  predicate NonEmpty(x: Nullable)
    ensures NonEmpty(x) <==> x.Str? && |x.value| > 0
  {
    x.Str? && x.value != ""
  }

  /**
   * A value of the bundler's asset table `compilation.assets`. `NoAsset` is the
   * `undefined` that JavaScript stores when a missing key is copied.
   */
  datatype AssetValue = NoAsset | Asset(source: string)

  type AssetTable = map<string, AssetValue>

  /** The errors the module reports through its callback. */
  datatype Error =
    | NoFilepath                 // 'No filepath defined'
    | HostError(reason: string)  // rejection of the host plugin's registration
    | NotAList(typeOfAsset: string) // `unshift` on a missing per-type list throws a TypeError

  /** One element of the `assets` option; `None`/`Undefined` stand for an absent field. */
  datatype AssetDescriptor = AssetDescriptor(
    filepath: Nullable,
    typeOfAsset: Option<string>,
    includeSourcemap: Option<bool>,
    hash: Option<bool>,
    publicPath: Nullable,
    outputPath: Nullable)

  /** `typeOfAsset` with its default `'js'`. */
  function TypeKey(d: AssetDescriptor): (r: string)
    ensures d.typeOfAsset.None? ==> r == "js"
    ensures d.typeOfAsset.Some? ==> r == d.typeOfAsset.value
  {
    if d.typeOfAsset.Some? then d.typeOfAsset.value else "js"
  }

  /** `includeSourcemap` with its default `true`. */
  predicate IncludeSourcemap(d: AssetDescriptor)
    ensures IncludeSourcemap(d) <==> d.includeSourcemap.None? || d.includeSourcemap.value
  {
    d.includeSourcemap != Some(false)
  }

  /** `hash` with its default `false`. */
  predicate Hashed(d: AssetDescriptor)
    ensures Hashed(d) <==> d.hash.Some? && d.hash.value
  {
    d.hash == Some(true)
  }

  /** Outcome of the host plugin's "register this file" call. */
  datatype Registration = Registered(name: string, source: string) | Rejected(reason: string)

  /**
   * The code this model does not see, as functions:
   * - `addFileToAssets`: the host plugin's registration of a file path, which
   *   yields the output name and the file's content, or a rejection;
   * - `md5Hex`: the hexadecimal md5 digest of an asset's content;
   * - `relativeToDir`: `path.relative(path.dirname(filename), '.')`.
   */
  datatype Host = Host(
    addFileToAssets: string -> Registration,
    md5Hex: string -> string,
    relativeToDir: string -> string)
}
