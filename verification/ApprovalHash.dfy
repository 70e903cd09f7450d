// The approval hash over the canonical form, and the request id cut from it
// (daemon/internal/approval/hash.go, daemon/internal/approval/lifecycle.go).
module ApprovalHash {
  import opened Intents
  import opened Canonical
  import opened ApprovalRuns

  // The hash is a digest of the full form; the id is a prefix and a piece of the hash.
  function CanonicalWorld(c: Clock, digest: string -> string, piece: string -> string): World {
    World(i => digest(Object(Internal(c, i))), i => "apr_" + piece(digest(Object(Internal(c, i)))))
  }

  // Where neither the digest nor the piece of it collides, an approval binds every field of its
  // intent: what every run-wide result about approvals assumes.
  lemma CanonicalWorldIsCollisionless(c: Clock, digest: string -> string, piece: string -> string)
    requires Faithful(c)
    requires forall s, t :: digest(s) == digest(t) ==> s == t
    requires forall s, t :: piece(s) == piece(t) ==> s == t
    ensures Collisionless(CanonicalWorld(c, digest, piece))
  {
    var w := CanonicalWorld(c, digest, piece);
    HashBinds(c, digest);
    forall a, b | w.ident(a) == w.ident(b) ensures a == b {
      IdsBind(w.hash(a), w.hash(b), piece);
    }
    forall a ensures w.ident(a) != "" {
      assert |w.ident(a)| >= |"apr_"|;
    }
  }

  lemma IdsBind(x: string, y: string, piece: string -> string)
    requires (forall s, t :: piece(s) == piece(t) ==> s == t) && "apr_" + piece(x) == "apr_" + piece(y)
    ensures x == y
  {
    PrefixInjective("apr_", piece(x), piece(y));
  }

  lemma PrefixInjective(p: string, x: string, y: string)
    requires p + x == p + y
    ensures x == y
  {
    assert (p + x)[|p|..] == x && (p + y)[|p|..] == y;
  }
}
