/** What the receivers' HTTP handlers need: the response they choose and the
    two string tests they choose it by. Reading the file and writing the
    response are left to the caller; whether `fs.readFile` succeeded is an input. */
module Http {

  datatype Response =
    | Served(contentType: string, file: string)  // 200, the file's contents, with this Content-Type
    | Forbidden                                  // 403 "Forbidden"
    | NotFound                                   // 404 "Not Found"
    | LoadError                                  // 500, `fs.readFile` failed

  /** `sub` occurs in `s` starting at index `i`. */
  predicate OccursAt(s: string, sub: string, i: nat) {
    i + |sub| <= |s| && s[i..i + |sub|] == sub
  }

  /** `s.includes(sub)`, scanning from the left. */
  function Includes(s: string, sub: string): bool
    decreases |s|
  {
    if |s| < |sub| then false
    else s[..|sub|] == sub || Includes(s[1..], sub)
  }

  /** The scan finds `sub` exactly when it occurs somewhere in `s`. */
  lemma {:induction false} IncludesIffOccurs(s: string, sub: string)
    ensures Includes(s, sub) <==> exists i: nat :: OccursAt(s, sub, i)
    decreases |s|
  {
    if |s| >= |sub| {
      if s[..|sub|] == sub {
        assert OccursAt(s, sub, 0);
      } else {
        IncludesIffOccurs(s[1..], sub);
        if Includes(s[1..], sub) {
          var j: nat :| OccursAt(s[1..], sub, j);
          assert s[j + 1..j + 1 + |sub|] == s[1..][j..j + |sub|];
          assert OccursAt(s, sub, j + 1);
        }
        if exists i: nat :: OccursAt(s, sub, i) {
          var i: nat :| OccursAt(s, sub, i);
          assert i != 0;
          assert s[1..][i - 1..i - 1 + |sub|] == s[i..i + |sub|];
          assert OccursAt(s[1..], sub, i - 1);
        }
      }
    }
  }

  /** `fullPath.indexOf(root) === 0`: `root` is a prefix of `fullPath`. */
  predicate StartsWith(fullPath: string, root: string) {
    root <= fullPath
  }
}
