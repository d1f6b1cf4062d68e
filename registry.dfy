/** The strategy and indicator registries: a list of registered classes and a
    dictionary from class name to class, filled by scanning the modules of a
    package directory and its `volume` sub-directory for proper subclasses of
    a base class.

    `StrategyManager` (base class `StrategyBase`) and `IndicatorManager`
    (base class `bt.Indicator`) are the same structure; `ClassRegistry`
    models both. Module import and attribute listing are inputs: a module is
    its name and, when its import succeeded, the attributes it lists. */
module Registry {
  import opened Wrappers
  import Text

  /** A Python class: its identity, its `__name__`, and the identities of
      its proper ancestors (its method resolution order without itself). */
  datatype PyClass = PyClass(id: nat, name: string, ancestors: set<nat>)

  /** A module attribute: a class or any other value. */
  datatype Attr = ClassAttr(cls: PyClass) | OtherAttr

  /** A module found by the scan: its name and, if importing it succeeded,
      its attributes in `dir` order. */
  datatype PyModule = PyModule(name: string, attrs: Option<seq<Attr>>)

  /** `issubclass(c, base) and c != base`: `base` is a proper ancestor of `c`. */
  predicate ProperSubclass(c: PyClass, base: PyClass) {
    c.id != base.id && base.id in c.ancestors
  }

  /** The top-level scan skips `common` and names starting with `__`. */
  predicate TopLevelSkipped(moduleName: string) {
    moduleName == "common" || Text.StartsWith(moduleName, "__")
  }

  /** The `volume` scan skips only names starting with `__`. */
  predicate VolumeSkipped(moduleName: string) {
    Text.StartsWith(moduleName, "__")
  }

  /** The registry's contents: the class list, the dictionary's keys in
      insertion order, and the dictionary. */
  datatype RegistryState = RegistryState(classes: seq<PyClass>, keys: seq<string>, byName: map<string, PyClass>)

  const EmptyRegistry := RegistryState([], [], map[])

  /** The last registered class with the given name, if any. */
  function LastNamed(classes: seq<PyClass>, name: string): (r: Option<PyClass>)
    ensures r.Some? ==> r.value in classes && r.value.name == name
    ensures r.None? <==> forall c :: c in classes ==> c.name != name
    decreases |classes|
  {
    if classes == [] then None
    else
      var last := classes[|classes| - 1];
      var init := classes[..|classes| - 1];
      assert forall c :: c in classes <==> c in init || c == last;
      if last.name == name then Some(last) else LastNamed(init, name)
  }

  /** The list has no repeats, the keys are the dictionary's keys without
      repeats, and each name maps to the last class registered under it. */
  ghost predicate Valid(s: RegistryState) {
    && (forall i, j :: 0 <= i < j < |s.classes| ==> s.classes[i] != s.classes[j])
    && (forall i, j :: 0 <= i < j < |s.keys| ==> s.keys[i] != s.keys[j])
    && (forall n :: n in s.byName <==> n in s.keys)
    && (forall n :: n in s.byName ==> LastNamed(s.classes, n) == Some(s.byName[n]))
    && (forall n :: n !in s.byName ==> LastNamed(s.classes, n) == None)
  }

  lemma EmptyValid()
    ensures Valid(EmptyRegistry)
  {
  }

  /** `register_*`: a class already listed changes nothing; a new one is
      appended to the list and stored under its name. */
  function Registered(s: RegistryState, c: PyClass): (r: RegistryState)
    ensures c in s.classes ==> r == s
    ensures c !in s.classes ==> r.classes == s.classes + [c] && r.byName == s.byName[c.name := c]
    ensures c !in s.classes ==> r.keys == s.keys + (if c.name in s.byName then [] else [c.name])
  {
    if c in s.classes then s
    else RegistryState(s.classes + [c],
                       if c.name in s.byName then s.keys else s.keys + [c.name],
                       s.byName[c.name := c])
  }

  /** `get_*`: the class stored under the name, `None` for an unknown name. */
  function Lookup(s: RegistryState, name: string): (r: Option<PyClass>)
    ensures name !in s.byName ==> r.None?
    ensures Valid(s) ==> r == LastNamed(s.classes, name)
  {
    if name in s.byName then Some(s.byName[name]) else None
  }

  lemma LastNamedAppend(classes: seq<PyClass>, c: PyClass, n: string)
    ensures LastNamed(classes + [c], n) == (if n == c.name then Some(c) else LastNamed(classes, n))
  {
    assert (classes + [c])[..|classes + [c]| - 1] == classes;
  }

  /** Registering keeps the registry valid. */
  lemma {:induction false} RegisterValid(s: RegistryState, c: PyClass)
    requires Valid(s)
    ensures Valid(Registered(s, c))
  {
    if c !in s.classes {
      var r := Registered(s, c);
      assert r.classes == s.classes + [c];
      forall n | n in r.byName ensures LastNamed(r.classes, n) == Some(r.byName[n]) {
        LastNamedAppend(s.classes, c, n);
      }
      forall n | n !in r.byName ensures LastNamed(r.classes, n) == None {
        LastNamedAppend(s.classes, c, n);
      }
      assert forall n :: n in r.byName <==> n in r.keys;
      forall i, j | 0 <= i < j < |r.classes| ensures r.classes[i] != r.classes[j] {
        if j == |s.classes| {
          assert r.classes[i] in s.classes;
        }
      }
      forall i, j | 0 <= i < j < |r.keys| ensures r.keys[i] != r.keys[j] {
        if c.name !in s.byName && j == |s.keys| {
          assert r.keys[i] in s.keys;
        }
      }
    }
  }

  /** Registering twice is registering once. */
  lemma RegisterIdempotent(s: RegistryState, c: PyClass)
    ensures Registered(Registered(s, c), c) == Registered(s, c)
  {
  }

  /** After registering a class, looking up its name finds it, unless the
      class was already listed under a name taken by a later class. */
  lemma {:induction false} RegisterThenLookup(s: RegistryState, c: PyClass)
    requires Valid(s) && c !in s.classes
    ensures Lookup(Registered(s, c), c.name) == Some(c)
    ensures forall n :: n != c.name ==> Lookup(Registered(s, c), n) == Lookup(s, n)
  {
  }

  /** Two distinct classes with one name both stay in the list, and the
      dictionary keeps the later one; the registry stays valid, so the name
      is listed once among the keys. */
  lemma {:induction false} SameNameLaterWins(s: RegistryState, a: PyClass, b: PyClass)
    requires Valid(s) && a != b && a.name == b.name && a !in s.classes && b !in s.classes
    ensures var r := Registered(Registered(s, a), b);
      && a in r.classes && b in r.classes
      && Lookup(r, a.name) == Some(b)
      && a.name in r.keys
      && Valid(r)
  {
    RegisterValid(s, a);
    RegisterValid(Registered(s, a), b);
  }

  /** The classes a scan registers, in order: every proper subclass of the
      base among the attributes of each module that is not skipped and that
      imported. */
  function ClassesIn(attrs: seq<Attr>, base: PyClass): (r: seq<PyClass>)
    ensures forall c :: c in r <==> ClassAttr(c) in attrs && ProperSubclass(c, base)
    decreases |attrs|
  {
    if attrs == [] then []
    else
      var init := attrs[..|attrs| - 1];
      var a := attrs[|attrs| - 1];
      assert forall x :: x in attrs <==> x in init || x == a;
      ClassesIn(init, base) + (if a.ClassAttr? && ProperSubclass(a.cls, base) then [a.cls] else [])
  }

  function Candidates(modules: seq<PyModule>, base: PyClass, volume: bool): (r: seq<PyClass>)
    ensures forall c :: c in r ==> ProperSubclass(c, base)
    ensures forall c :: c in r <==>
      exists m :: m in modules && m.attrs.Some? && ClassAttr(c) in m.attrs.value
        && ProperSubclass(c, base) && !(if volume then VolumeSkipped(m.name) else TopLevelSkipped(m.name))
    decreases |modules|
  {
    if modules == [] then []
    else
      var init := modules[..|modules| - 1];
      var m := modules[|modules| - 1];
      assert forall x :: x in modules <==> x in init || x == m;
      var skipped := if volume then VolumeSkipped(m.name) else TopLevelSkipped(m.name);
      Candidates(init, base, volume) + (if skipped || m.attrs.None? then [] else ClassesIn(m.attrs.value, base))
  }

  function RegisterAll(s: RegistryState, cs: seq<PyClass>): (r: RegistryState)
    decreases |cs|
  {
    if cs == [] then s else Registered(RegisterAll(s, cs[..|cs| - 1]), cs[|cs| - 1])
  }

  /** Scanning one more attribute appends its class when it is a proper subclass. */
  lemma ClassesInAppend(attrs: seq<Attr>, a: Attr, base: PyClass)
    ensures ClassesIn(attrs + [a], base) ==
      ClassesIn(attrs, base) + (if a.ClassAttr? && ProperSubclass(a.cls, base) then [a.cls] else [])
  {
    assert (attrs + [a])[..|attrs|] == attrs;
  }

  /** Registering one more class is one more `Registered` step. */
  lemma RegisterAllAppendOne(s: RegistryState, cs: seq<PyClass>, c: PyClass)
    ensures RegisterAll(s, cs + [c]) == Registered(RegisterAll(s, cs), c)
  {
    assert (cs + [c])[..|cs|] == cs;
  }

  /** Registering a list keeps the registry valid, keeps what was listed,
      and lists every class of the list. */
  lemma {:induction false} RegisterAllProps(s: RegistryState, cs: seq<PyClass>)
    requires Valid(s)
    ensures var r := RegisterAll(s, cs);
      && Valid(r)
      && (forall c :: c in r.classes <==> c in s.classes || c in cs)
    decreases |cs|
  {
    if cs != [] {
      var init := cs[..|cs| - 1];
      RegisterAllProps(s, init);
      RegisterValid(RegisterAll(s, init), cs[|cs| - 1]);
      assert forall x :: x in cs <==> x in init || x == cs[|cs| - 1];
    }
  }

  /** What the scans register: starting from an empty registry, exactly the
      proper subclasses found in the modules that are not skipped. */
  lemma DiscoveryRegistersProperSubclasses(top: seq<PyModule>, volume: Option<seq<PyModule>>, base: PyClass)
    ensures var found := Candidates(top, base, false) + (if volume.Some? then Candidates(volume.value, base, true) else []);
      var r := RegisterAll(EmptyRegistry, found);
      && Valid(r)
      && (forall c :: c in r.classes ==> ProperSubclass(c, base))
      && (forall c :: c in r.classes <==> c in found)
  {
    var found := Candidates(top, base, false) + (if volume.Some? then Candidates(volume.value, base, true) else []);
    EmptyValid();
    RegisterAllProps(EmptyRegistry, found);
  }

  /** The registry object of a manager. */
  class ClassRegistry {
    const base: PyClass
    var classes: seq<PyClass>
    var keys: seq<string>
    var byName: map<string, PyClass>

    function State(): RegistryState
      reads this
    {
      RegistryState(classes, keys, byName)
    }

    /** `register_*`. */
    method Register(c: PyClass)
      modifies this
      ensures State() == Registered(old(State()), c)
    {
      if c !in classes {
        classes := classes + [c];
        if c.name !in byName {
          keys := keys + [c.name];
        }
        byName := byName[c.name := c];
      }
    }

    /** `get_*(name)`. */
    function Get(name: string): (r: Option<PyClass>)
      reads this
      ensures r == Lookup(State(), name)
    {
      if name in byName then Some(byName[name]) else None
    }

    /** `get_*_names()`: the dictionary's keys in insertion order. */
    function Names(): (r: seq<string>)
      reads this
      ensures Valid(State()) ==> forall n :: n in r <==> Get(n).Some?
    {
      keys
    }

    /** The attribute loop of a scan over one imported module. */
    method RegisterClassesIn(attrs: seq<Attr>)
      modifies this
      ensures State() == RegisterAll(old(State()), ClassesIn(attrs, base))
    {
      ghost var start := State();
      var j := 0;
      while j < |attrs|
        invariant 0 <= j <= |attrs|
        invariant State() == RegisterAll(start, ClassesIn(attrs[..j], base))
      {
        var a := attrs[j];
        assert attrs[..j + 1] == attrs[..j] + [a];
        ClassesInAppend(attrs[..j], a, base);
        if a.ClassAttr? && ProperSubclass(a.cls, base) {
          RegisterAllAppendOne(start, ClassesIn(attrs[..j], base), a.cls);
          Register(a.cls);
        } else {
          assert ClassesIn(attrs[..j], base) + [] == ClassesIn(attrs[..j], base);
        }
        j := j + 1;
      }
      assert attrs[..|attrs|] == attrs;
    }

    /** One scan: each module that is not skipped and imported contributes
        its proper subclasses of the base, in attribute order. */
    method Scan(modules: seq<PyModule>, volume: bool)
      modifies this
      ensures State() == RegisterAll(old(State()), Candidates(modules, base, volume))
    {
      ghost var start := State();
      var i := 0;
      while i < |modules|
        invariant 0 <= i <= |modules|
        invariant State() == RegisterAll(start, Candidates(modules[..i], base, volume))
      {
        var m := modules[i];
        assert modules[..i + 1][..i] == modules[..i];
        ghost var before := Candidates(modules[..i], base, volume);
        var skipped := if volume then VolumeSkipped(m.name) else TopLevelSkipped(m.name);
        if !skipped && m.attrs.Some? {
          RegisterClassesIn(m.attrs.value);
          RegisterAllAppend(start, before, ClassesIn(m.attrs.value, base));
        } else {
          assert Candidates(modules[..i + 1], base, volume) == before + [];
          assert before + [] == before;
        }
        i := i + 1;
      }
      assert modules[..|modules|] == modules;
    }

    /** The manager's constructor: an empty registry filled by the
        top-level scan and, when the `volume` directory exists, its scan. */
    constructor (base: PyClass, top: seq<PyModule>, volume: Option<seq<PyModule>>)
      ensures this.base == base
      ensures State() == RegisterAll(EmptyRegistry, Candidates(top, base, false)
                                     + (if volume.Some? then Candidates(volume.value, base, true) else []))
    {
      this.base := base;
      classes, keys, byName := [], [], map[];
      new;
      Scan(top, false);
      if volume.Some? {
        Scan(volume.value, true);
        RegisterAllAppend(EmptyRegistry, Candidates(top, base, false), Candidates(volume.value, base, true));
      } else {
        assert Candidates(top, base, false) + [] == Candidates(top, base, false);
      }
    }
  }

  lemma {:induction false} RegisterAllAppend(s: RegistryState, a: seq<PyClass>, b: seq<PyClass>)
    ensures RegisterAll(s, a + b) == RegisterAll(RegisterAll(s, a), b)
    decreases |b|
  {
    if b == [] {
      assert a + b == a;
    } else {
      assert (a + b)[..|a + b| - 1] == a + b[..|b| - 1];
      RegisterAllAppend(s, a, b[..|b| - 1]);
    }
  }
}
