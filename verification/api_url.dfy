/**
 * The URL normaliser of `forwardRequestToOnshape`: a path that already starts
 * with the API base is used as it is, any other path is appended to the base
 * after a slash. The same expression appears in gltf-viewer-oauth/utils.js and
 * in gltf-viewer-flow/utils.js; this module models both.
 */
module ApiUrl {
  import JsString

  /**
   * `apiPath.indexOf(base) === 0 ? apiPath : `${base}/${apiPath}``, stated
   * against the prefix order on strings rather than `indexOf`.
   */
  function Normalise(base: string, path: string): (url: string)
    ensures base <= path ==> url == path
    ensures !(base <= path) ==> url == base + "/" + path
    ensures base <= url
  {
    JsString.IndexOfZeroIsPrefix(path, base);
    if JsString.IndexOf(path, base) == 0 then path else base + "/" + path
  }

  /** Normalising a normalised URL changes nothing. */
  lemma NormaliseIdempotent(base: string, path: string)
    ensures Normalise(base, Normalise(base, path)) == Normalise(base, path)
  {
  }
}
