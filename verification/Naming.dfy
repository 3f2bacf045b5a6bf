/** How the bridge names a server's tools, and when such names can be taken apart again. */
module Naming {
  import opened Text

  const SEPARATOR := "__"

  function ActionName(server: string, tool: string): string {
    server + SEPARATOR + tool
  }

  /** A name that no separator can start inside of, once one is appended. */
  predicate Clean(name: string) {
    Index(name, SEPARATOR) < 0 && (name == "" || name[|name| - 1] != '_')
  }

  /** The first separator of `name__rest` is the appended one exactly for clean names. */
  lemma FirstSeparator(name: string, rest: string)
    ensures Index(ActionName(name, rest), SEPARATOR) == |name| <==> Clean(name)
  {
    var s := ActionName(name, rest);
    assert OccursAt(s, SEPARATOR, |name|);
    forall i | 0 <= i < |name| ensures OccursAt(s, SEPARATOR, i) <==>
        (OccursAt(name, SEPARATOR, i) || (i == |name| - 1 && name[i] == '_'))
    {
      assert s[i..i + 2] == [s[i], s[i + 1]];
      if i + 2 <= |name| { assert name[i..i + 2] == [name[i], name[i + 1]]; }
    }
  }

  /** Two server names whose prefixes cannot be mistaken for each other. */
  predicate Apart(a: string, b: string) {
    !(a + SEPARATOR <= b + SEPARATOR) && !(b + SEPARATOR <= a + SEPARATOR)
  }

  /** Different clean names are apart. */
  lemma CleanNamesApart(a: string, b: string)
    requires Clean(a) && Clean(b) && a != b
    ensures Apart(a, b)
  {
    if a + SEPARATOR <= b + SEPARATOR { SharedPrefix(a, b); }
    if b + SEPARATOR <= a + SEPARATOR { SharedPrefix(b, a); }
  }

  lemma SharedPrefix(a: string, b: string)
    requires Clean(a) && Clean(b) && a + SEPARATOR <= b + SEPARATOR
    ensures a == b
  {
    var s := b + SEPARATOR;
    var rest := s[|a| + 2..];
    assert s == ActionName(a, rest) && s == ActionName(b, "");
    FirstSeparator(a, rest);
    FirstSeparator(b, "");
    assert a == s[..|a|] == b;
  }

  /** Of two servers apart, the prefix `a__` selects no action of `b`. */
  lemma PrefixSelectsServer(a: string, b: string, tool: string)
    requires a == b || Apart(a, b)
    ensures a + SEPARATOR <= ActionName(b, tool) <==> a == b
  {
    var s := ActionName(b, tool);
    assert b + SEPARATOR == s[..|b| + 2];
    if a + SEPARATOR <= s { OnePrefixesOther(a + SEPARATOR, b + SEPARATOR, s); }
  }

  lemma OnePrefixesOther(p: string, q: string, s: string)
    requires p <= s && q <= s
    ensures p <= q || q <= p
  {
    assert p == s[..|p|] && q == s[..|q|];
    assert |p| <= |q| ==> p == q[..|p|];
    assert |q| <= |p| ==> q == p[..|q|];
  }

  /** Then an action name determines its server and its tool. */
  lemma NameInjective(a: string, t: string, b: string, u: string)
    requires a == b || Apart(a, b)
    requires ActionName(a, t) == ActionName(b, u)
    ensures a == b && t == u
  {
    PrefixSelectsServer(a, b, u);
    assert a + SEPARATOR <= ActionName(a, t) by { PrefixSelectsServer(a, a, t); }
    assert t == ActionName(a, t)[|a| + 2..] == u;
  }

  /** Two servers never share an action name exactly when they are apart. */
  lemma ApartExactly(a: string, b: string)
    ensures Apart(a, b) <==> forall t, u :: ActionName(a, t) != ActionName(b, u)
  {
    if Apart(a, b) {
      forall t, u ensures ActionName(a, t) != ActionName(b, u) {
        if ActionName(a, t) == ActionName(b, u) {
          NameInjective(a, t, b, u);
          NotApartFromItself(a);
        }
      }
    } else {
      var t, u := Clash(a, b);
    }
  }

  lemma NotApartFromItself(a: string)
    ensures !Apart(a, a)
  {
    assert (a + SEPARATOR)[..|a| + 2] == a + SEPARATOR;
  }

  /** Tools with which two servers that are not apart share an action name. */
  lemma Clash(a: string, b: string) returns (t: string, u: string)
    requires !Apart(a, b)
    ensures ActionName(a, t) == ActionName(b, u)
  {
    var p, q := a + SEPARATOR, b + SEPARATOR;
    if p <= q {
      t, u := q[|p|..], "";
      assert p + t == q;
    } else {
      t, u := "", p[|q|..];
      assert q + u == p;
    }
  }

  /** A trailing underscore is enough for that. */
  lemma UncleanNamesClash()
    ensures ActionName("a", "_b") == ActionName("a_", "b") && !Apart("a", "a_")
  {
    assert ActionName("a", "_b") == "a___b" == ActionName("a_", "b");
    ApartExactly("a", "a_");
  }
}
