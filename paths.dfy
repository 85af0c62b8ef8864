/** POSIX path helpers the generator uses: `os.path.join` and `str.split('/')[-1]`. */
module Paths {

  /** `os.path.join(a, b)` for two components on POSIX. */
  function Join(a: string, b: string): string
  {
    if |b| > 0 && b[0] == '/' then b
    else if a == [] || a[|a| - 1] == '/' then a + b
    else a + "/" + b
  }

  /** The component does not make `Join` discard what comes before it. */
  predicate Relative(b: string) {
    b == [] || b[0] != '/'
  }

  /** The separator `Join` puts after `a` before a relative component. */
  function Sep(a: string): string {
    if a == [] || a[|a| - 1] == '/' then "" else "/"
  }

  /** Joining a relative component only ever inserts the separator. */
  lemma JoinRel(a: string, b: string)
    requires Relative(b)
    ensures Join(a, b) == a + Sep(a) + b
  {}

  lemma JoinNonEmpty(a: string, f: string)
    requires f != [] && Relative(f)
    ensures Join(a, f) != [] && Sep(Join(a, f)) == Sep(f)
  {
    JoinRel(a, f);
    var af := a + Sep(a) + f;
    assert af[|af| - 1] == f[|f| - 1];
  }

  lemma JoinKeepsHead(f: string, n: string)
    requires f != [] && Relative(f) && Relative(n)
    ensures Relative(Join(f, n))
  {
    JoinRel(f, n);
    assert (f + Sep(f) + n)[0] == f[0];
  }

  lemma ConcatAssoc(a: string, s: string, f: string, t: string, n: string)
    ensures (a + s + f) + t + n == a + s + (f + t + n)
  {}

  /** A relative component lands below `a`: the joined path starts with `a`. */
  lemma JoinExtends(a: string, b: string)
    requires Relative(b)
    ensures a <= Join(a, b)
  {
    JoinRel(a, b);
  }

  /**
   * Joining in two steps is joining with the joined tail: the href a parent
   * embeds for a child (`join(folder, file)`) resolves against the parent's
   * folder to the path the writer uses (`join(join(base, folder), file)`).
   */
  lemma JoinAssoc(a: string, f: string, n: string)
    requires Relative(f) && Relative(n)
    ensures Join(Join(a, f), n) == Join(a, Join(f, n))
  {
    var af, fn := Join(a, f), Join(f, n);
    JoinRel(a, f);
    JoinRel(f, n);
    if f == [] {
      assert fn == n && af == a + Sep(a);
      assert Sep(af) == "";
      JoinRel(af, n);
      assert af + Sep(af) + n == a + Sep(a) + n;
      JoinRel(a, n);
    } else {
      JoinNonEmpty(a, f);
      JoinKeepsHead(f, n);
      JoinRel(af, n);
      JoinRel(a, fn);
      ConcatAssoc(a, Sep(a), f, Sep(f), n);
      assert Join(af, n) == af + Sep(f) + n;
      assert Join(a, fn) == a + Sep(a) + fn;
    }
  }

  /** `seg` is the part of `s` after its last '/', or all of `s` when it has none. */
  predicate IsLastSegment(seg: string, s: string) {
    && '/' !in seg
    && |seg| <= |s| && seg == s[|s| - |seg|..]
    && (|seg| < |s| ==> s[|s| - |seg| - 1] == '/')
  }

  /**
   * `s.split('/')[-1]`: the text after the last '/', or all of `s` when it
   * has none.
   */
  function LastSegment(s: string): (r: string)
    ensures '/' !in r
    ensures |r| <= |s| && r == s[|s| - |r|..]
    ensures |r| < |s| ==> s[|s| - |r| - 1] == '/'
    decreases |s|
  {
    if s == [] then []
    else if s[|s| - 1] == '/' then []
    else
      var init := s[..|s| - 1];
      var r' := LastSegment(init);
      assert s[|s| - |r'| - 1..] == init[|init| - |r'|..] + [s[|s| - 1]];
      r' + [s[|s| - 1]]
  }

  /** A segment appended after a '/' is what `LastSegment` recovers. */
  lemma {:induction false} LastSegmentAfterSlash(prefix: string, seg: string)
    requires '/' !in seg
    ensures LastSegment(prefix + "/" + seg) == seg
    decreases |seg|
  {
    var s := prefix + "/" + seg;
    if seg == [] {
      assert s[|s| - 1] == '/';
    } else {
      assert s[..|s| - 1] == prefix + "/" + seg[..|seg| - 1];
      LastSegmentAfterSlash(prefix, seg[..|seg| - 1]);
      assert seg == seg[..|seg| - 1] + [seg[|seg| - 1]];
    }
  }
}
