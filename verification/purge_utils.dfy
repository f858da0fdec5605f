/**
 * The helpers the purge engine calls but whose code is not part of this
 * model: the role-hash and purge-id functions of the purging utility
 * library, `JSON.stringify` of a string array, the md5 hex digest and the
 * name of the main database. Each is an arbitrary total function, so every
 * property proved about the engine holds whatever they compute, except
 * where a lemma states an assumption about them explicitly (the ghost
 * predicates below).
 */
module PurgeUtils {

  datatype Utils = Utils(
    environmentDb: string,                   // name of the main database
    roleHash: seq<string> -> string,         // getRoleHash(roles)
    purgeDbName: (string, string) -> string, // getPurgeDbName(dbName, hash)
    purgedId: string -> string,              // getPurgedId(docId)
    extractId: string -> string,             // extractId(purgedId)
    stringify: seq<string> -> string,        // JSON.stringify of a string array
    md5Hex: string -> string                 // md5 digest, hex encoded
  )

  /** Assumption: extracting the id from a purge-record id gives back the document id. */
  ghost predicate ExtractInvertsPurgedId(u: Utils) {
    forall id :: u.extractId(u.purgedId(id)) == id
  }

  /** Two role lists hold the same roles, in any order and with any repetition. */
  ghost predicate SameRoles(a: seq<string>, b: seq<string>) {
    forall r :: r in a <==> r in b
  }

  /** Assumption: the role hash depends only on the set of roles. */
  ghost predicate RoleHashIgnoresOrder(u: Utils) {
    forall a, b :: SameRoles(a, b) ==> u.roleHash(a) == u.roleHash(b)
  }

  /** The characters a JavaScript regular expression `.` does not match. */
  predicate IsLineTerminator(c: char) {
    c == '\n' || c == '\r' || c == '\U{2028}' || c == '\U{2029}'
  }

  predicate SingleLine(s: string) {
    forall i :: 0 <= i < |s| ==> !IsLineTerminator(s[i])
  }

  /** The two line terminators JSON.stringify copies into its output unescaped. */
  predicate IsRawSeparator(c: char) {
    c == '\U{2028}' || c == '\U{2029}'
  }

  /** No role contains U+2028 or U+2029. */
  predicate NoRawSeparator(roles: seq<string>) {
    forall r :: r in roles ==> forall i :: 0 <= i < |r| ==> !IsRawSeparator(r[i])
  }

  /**
   * Assumption: a serialized role list whose roles hold no U+2028 or U+2029
   * is a non-empty single-line string (JSON escapes every character below
   * U+0020, so line feed and carriage return, but copies U+2028 and U+2029
   * as they are); an md5 hex digest is a non-empty single-line string (32
   * characters from [0-9a-f]).
   */
  ghost predicate KeyPartsSingleLine(u: Utils) {
    && (forall roles :: NoRawSeparator(roles) ==> |u.stringify(roles)| > 0 && SingleLine(u.stringify(roles)))
    && (forall text :: |u.md5Hex(text)| > 0 && SingleLine(u.md5Hex(text)))
  }

  /** The length of an md5 digest written in hex: 128 bits, four per digit. */
  const Md5HexLength := 32

  /** Assumption: every md5 hex digest has the same length, whatever it digests. */
  ghost predicate DigestHasFixedLength(u: Utils) {
    forall text :: |u.md5Hex(text)| == Md5HexLength
  }
}
