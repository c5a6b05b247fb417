/** The strings under which payments for a transfer are remembered. */
module PaidKeys {
  import opened Text

  /** Who paid, and for what: one constructor for each route that writes a mark. */
  datatype PaidKey =
    | UserFile(user: string, file: string)
    | UserZip(user: string, share: string, etag: string)
    | LinkFile(link: string, file: string)
    | LinkZip(link: string, etag: string)
    | LinkPreview(link: string, file: string)

  function Parts(k: PaidKey): seq<string> {
    match k
    case UserFile(u, f) => ["user", u, "file", f]
    case UserZip(u, s, e) => ["user", u, "zip", s, e]
    case LinkFile(l, f) => ["link", l, "file", f]
    case LinkZip(l, e) => ["link", l, "zip", e]
    case LinkPreview(l, f) => ["link", l, "preview", f]
  }

  function Render(k: PaidKey): string {
    Join(Parts(k), ':')
  }

  /** The five key strings. */
  lemma RenderIs(a: string, b: string, c: string)
    ensures Render(UserFile(a, b)) == "user" + ":" + a + ":" + "file" + ":" + b
    ensures Render(UserZip(a, b, c)) == "user" + ":" + a + ":" + "zip" + ":" + b + ":" + c
    ensures Render(LinkFile(a, b)) == "link" + ":" + a + ":" + "file" + ":" + b
    ensures Render(LinkZip(a, b)) == "link" + ":" + a + ":" + "zip" + ":" + b
    ensures Render(LinkPreview(a, b)) == "link" + ":" + a + ":" + "preview" + ":" + b
  {
    JoinFour("user", a, "file", b);
    JoinFour("link", a, "file", b);
    JoinFour("link", a, "zip", b);
    JoinFour("link", a, "preview", b);
    var s := ["user", a, "zip", b, c];
    assert s[1..] == [a, "zip", b, c];
    JoinFour(a, "zip", b, c);
  }

  /** The ids and the entity tag hold no ':'. */
  predicate Plain(k: PaidKey) {
    forall p :: p in Parts(k) ==> ':' !in p
  }

  /** Plain keys share a string only when they are the same payer, the same route and the same resource. */
  lemma RenderInjective(a: PaidKey, b: PaidKey)
    requires Plain(a) && Plain(b) && Render(a) == Render(b)
    ensures a == b
  {
    SplitJoin(Parts(a), ':');
    SplitJoin(Parts(b), ':');
    var p, q := Parts(a), Parts(b);
    assert p == q;
    assert p[0] == q[0] && p[1] == q[1] && p[2] == q[2] && p[3] == q[3];
    assert a.UserZip? && b.UserZip? ==> p[4] == q[4];
    assert "user"[0] != "link"[0] && "file"[0] != "zip"[0] && "file"[0] != "preview"[0] && "zip"[0] != "preview"[0];
  }

  /** With a ':' inside an id two links can share one string. */
  lemma ColonsCollide()
    ensures LinkFile("a:file:b", "c") != LinkFile("a", "b:file:c")
    ensures Render(LinkFile("a:file:b", "c")) == Render(LinkFile("a", "b:file:c"))
  {
    JoinFour("link", "a:file:b", "file", "c");
    JoinFour("link", "a", "file", "b:file:c");
    assert "a:file:b" != "a";
  }

  lemma JoinFour(a: string, b: string, c: string, d: string)
    ensures Join([a, b, c, d], ':') == a + ":" + b + ":" + c + ":" + d
  {
    var s := [a, b, c, d];
    assert s[1..] == [b, c, d] && s[1..][1..] == [c, d] && s[1..][1..][1..] == [d];
    assert Join([c, d], ':') == c + ":" + d;
    assert Join([b, c, d], ':') == b + ":" + Join([c, d], ':');
  }
}
