/** What the older library knows of a software outside its installation
    (denv_lib/src/software/mod.rs): its name and version, how it is displayed and when two are
    equal. How a software installs itself is a parameter of the code that installs it. */
module LibSoftware {

  datatype Software = Software(name: string, version: string)

  /** `Display for dyn Software`: `{name} v{version}`. */
  function Display(s: Software): string {
    s.name + " v" + s.version
  }

  /** `PartialEq for dyn Software`: same name and same version. */
  predicate Same(a: Software, b: Software) {
    a.name == b.name && a.version == b.version
  }

  /** Equality compares exactly what identifies a software, so it is an equivalence and equal
      softwares display alike: the display strings the load errors are keyed by. */
  lemma SameIsIdentity(a: Software, b: Software)
    ensures Same(a, b) <==> a == b
    ensures Same(a, b) ==> Display(a) == Display(b)
  {
  }

  /** Among softwares of one name, the display string determines the software. */
  lemma DisplayDeterminesVersion(a: Software, b: Software)
    requires a.name == b.name
    ensures Display(a) == Display(b) <==> Same(a, b)
  {
    if Display(a) == Display(b) {
      var k := |a.name| + 2;
      assert a.version == Display(a)[k..];
      assert b.version == Display(b)[k..];
    }
  }

  /** Across names it does not: a name may itself end in ` v…`. */
  lemma DisplayAmbiguousAcrossNames()
    ensures var a, b := Software("x", "1 v2"), Software("x v1", "2");
      Display(a) == Display(b) && !Same(a, b)
  {
  }
}
