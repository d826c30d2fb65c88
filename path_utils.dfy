/** PathUtils: composing dotted MongoDB field paths. */
module PathUtils {

  /**
   * Join: the key alone under an empty prefix; an array-index key (one that
   * starts with '[') is glued straight onto the prefix; otherwise prefix.key.
   */
  function Join(prefix: string, key: string): (r: string)
    ensures prefix == "" ==> r == key
    ensures prefix != "" && |key| > 0 && key[0] == '[' ==> r == prefix + key
    ensures prefix != "" && !(|key| > 0 && key[0] == '[') ==> r == prefix + "." + key
  {
    if |prefix| == 0 then key
    else if |key| > 0 && key[0] == '[' then prefix + key
    else prefix + "." + key
  }

  /** A non-empty prefix always begins the joined path, which is one separator longer at most. */
  lemma JoinExtendsPrefix(prefix: string, key: string)
    requires prefix != ""
    ensures Join(prefix, key)[..|prefix|] == prefix
    ensures |Join(prefix, key)| == |prefix| + |key| || |Join(prefix, key)| == |prefix| + |key| + 1
  {
  }

  /**
   * A path joined under a non-empty prefix holds a '.' or a '[' after the
   * prefix, so it is never a bare root-level name such as "_id" or "version".
   */
  lemma JoinUnderPrefixHasSeparator(prefix: string, key: string)
    requires prefix != ""
    ensures Join(prefix, key)[|prefix|] == '.' || Join(prefix, key)[|prefix|] == '['
  {
  }

  /** Join is not injective: a key holding a dot collides with a deeper path. */
  lemma JoinCollides()
    ensures Join("a", "b.c") == Join("a.b", "c")
    ensures Join("a", "[0]") == Join("", "a[0]")
  {
  }
}
