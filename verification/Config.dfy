/** Settings shared by the parts of the plugin: keys, tokens and addresses (src/plugin-config.cpp). */
module Config {

  predicate TokenChar(c: char) {
    'A' <= c <= 'Z' || 'a' <= c <= 'z' || '0' <= c <= '9' || c == '-' || c == '_'
  }

  /** is_token(): 16 to 256 characters of the 64-letter alphabet that needs no escaping in an address. */
  predicate IsToken(value: string) {
    16 <= |value| <= 256 && forall i | 0 <= i < |value| :: TokenChar(value[i])
  }
}
