/**
 The WordPress host, as the plugins see it. Every host call the plugins make is
 a field of one of these datatypes, so the model never reimplements WordPress:
 it only records which question is asked, with which arguments, and what is
 done with the answer.
 */
module Host {

  /** Per-plugin host queries made while a plugin descriptor is built. */
  datatype Env = Env(
    multisite: bool,                           // is_multisite()
    isActive: string -> bool,                  // is_plugin_active( $file )
    isActiveForNetwork: string -> bool,        // is_plugin_active_for_network( $file )
    isNetworkOnly: string -> bool,             // is_network_only_plugin( $file )
    pluginData: string -> map<string, string>  // get_plugin_data( WP_PLUGIN_DIR . '/' . $file, false, false )
  )

  /** The screen the toolbar is drawn on. Its `multisite` flag is kept apart
      from `Env.multisite` on purpose: descriptors are cached in a transient,
      so the answer `is_multisite()` gave when a descriptor was built may
      predate the request that reads it. */
  datatype View = View(
    multisite: bool,      // is_multisite()
    admin: bool,          // is_admin()
    networkScreen: bool   // get_current_screen()->in_admin( 'network' )
  )

  /** Nonce creation and verification (wp_create_nonce, wp_verify_nonce). */
  datatype Nonces = Nonces(create: string -> string, verify: (string, string) -> bool)

  /** An idealised nonce scheme: a token verifies for exactly the action it was made for. */
  ghost predicate Ideal(n: Nonces) {
    forall a, b :: n.verify(n.create(a), b) <==> a == b
  }

  /** URL and text helpers used by the redirect filters. */
  datatype UrlFns = UrlFns(
    clean: string -> string,                     // sanitize_text_field( wp_unslash( $v ) )
    sanitizeRedirect: string -> string,          // wp_sanitize_redirect( $v )
    validateRedirect: (string, string) -> string, // wp_validate_redirect( $v, $fallback )
    addQueryArg: (string, string, string) -> string, // add_query_arg( $key, $value, $url )
    rawDecode: string -> string                  // rawurldecode( $v )
  )
}
