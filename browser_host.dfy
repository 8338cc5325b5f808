/**
 * The browser globals the console touches. `typeof window !== "undefined"`
 * is the flag `isClient`; `localStorage` is a map from keys to strings; and
 * `window.location.href` is recorded rather than followed.
 */
module BrowserHost {

  const AccessTokenKey := "access_token"
  const RefreshTokenKey := "refresh_token"
  const LoginRoute := "/login"

  class Host {
    /** True in the browser, false during server-side rendering. */
    const isClient: bool
    /** The contents of `localStorage` (meaningful only when `isClient`). */
    var storage: map<string, string>
    /** The last value assigned to `window.location.href`. */
    var location: string

    constructor (isClient: bool, storage: map<string, string>, location: string)
      ensures this.isClient == isClient && this.storage == storage && this.location == location
    {
      this.isClient := isClient;
      this.storage := storage;
      this.location := location;
    }
  }
}
