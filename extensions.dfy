/** Discovery of the bot's extensions: module names are dotted paths, a
    module whose path has a component starting with an underscore is
    private, and a package only counts when it defines `setup`. */
module Extensions {
  import opened Text

  /** `name.rsplit(".", maxsplit=1)[-1]`: everything after the last dot. */
  function Unqualify(name: string): (r: string)
    ensures '.' !in r
    ensures EndsWith(name, r)
    ensures |r| < |name| ==> name[|name| - |r| - 1] == '.'
  {
    if name == [] then []
    else if name[|name| - 1] == '.' then []
    else Unqualify(name[..|name| - 1]) + [name[|name| - 1]]
  }

  /** A name without a dot is its own unqualified name. */
  lemma {:induction false} UnqualifyPlain(name: string)
    requires '.' !in name
    ensures Unqualify(name) == name
  {
    if name != [] {
      var init := name[..|name| - 1];
      assert '.' !in init by {
        forall k | 0 <= k < |init| ensures init[k] != '.' {
          assert init[k] == name[k];
        }
      }
      UnqualifyPlain(init);
      assert init + [name[|name| - 1]] == name;
    }
  }

  /** Qualifying a plain name under any package and unqualifying it again
      gives the plain name back. */
  lemma {:induction false} UnqualifyQualified(package: string, plain: string)
    requires '.' !in plain
    ensures Unqualify(package + "." + plain) == plain
  {
    if plain == [] {
      assert (package + "." + plain)[|package + "." + plain| - 1] == '.';
    } else {
      var init := plain[..|plain| - 1];
      assert '.' !in init by {
        forall k | 0 <= k < |init| ensures init[k] != '.' {
          assert init[k] == plain[k];
        }
      }
      UnqualifyQualified(package, init);
      var full := package + "." + plain;
      assert full[..|full| - 1] == package + "." + init;
      assert full[|full| - 1] == plain[|plain| - 1];
      assert init + [plain[|plain| - 1]] == plain;
    }
  }

  /** `name.split(".")`: the pieces between the dots, empty ones included. */
  function Components(name: string): (parts: seq<string>)
    ensures |parts| >= 1
  {
    if name == [] then [""]
    else
      var before := Components(name[..|name| - 1]);
      var last := name[|name| - 1];
      if last == '.' then before + [""]
      else before[..|before| - 1] + [before[|before| - 1] + [last]]
  }

  /** Adding one character to a name either opens an empty component or
      extends the last one; the components before stay the same. */
  lemma ComponentsSnoc(name: string, c: char)
    ensures var before := Components(name);
      var after := Components(name + [c]);
      if c == '.' then after == before + [""]
      else after == before[..|before| - 1] + [before[|before| - 1] + [c]]
  {
    assert (name + [c])[..|name|] == name;
  }

  /** No component contains a dot. */
  lemma {:induction false} ComponentsDotFree(name: string)
    ensures forall k :: 0 <= k < |Components(name)| ==> '.' !in Components(name)[k]
  {
    if name != [] {
      var init := name[..|name| - 1];
      var c := name[|name| - 1];
      assert init + [c] == name;
      ComponentsDotFree(init);
      ComponentsSnoc(init, c);
    }
  }

  /** Extending the last part extends the joined text by the same character. */
  lemma JoinExtendLast(parts: seq<string>, c: char)
    requires |parts| >= 1
    ensures Join(".", parts[..|parts| - 1] + [parts[|parts| - 1] + [c]]) == Join(".", parts) + [c]
  {
    var init := parts[..|parts| - 1];
    var x := parts[|parts| - 1];
    var extended := init + [x + [c]];
    assert extended[..|extended| - 1] == init;
    assert extended[|extended| - 1] == x + [c];
    if |parts| > 1 {
      var head := Join(".", init) + ".";
      assert Join(".", extended) == head + (x + [c]);
      assert Join(".", parts) == head + x;
      assert head + (x + [c]) == (head + x) + [c];
    }
  }

  /** Joining the components with dots gives the name back. */
  lemma {:induction false} ComponentsJoin(name: string)
    ensures Join(".", Components(name)) == name
  {
    if name != [] {
      var init := name[..|name| - 1];
      var c := name[|name| - 1];
      assert init + [c] == name;
      ComponentsJoin(init);
      ComponentsSnoc(init, c);
      var before := Components(init);
      if c == '.' {
        var after := before + [""];
        assert after[..|after| - 1] == before;
      } else {
        JoinExtendLast(before, c);
      }
    }
  }

  /** `ignore_module`: some component of the dotted name starts with an underscore. */
  predicate IgnoreModule(name: string) {
    exists k :: 0 <= k < |Components(name)| && StartsWith(Components(name)[k], "_")
  }

  /** The same rule read off the characters: an underscore at the start of
      the name or right after a dot. */
  predicate PrivateAt(name: string, i: int) {
    0 <= i < |name| && name[i] == '_' && (i == 0 || name[i - 1] == '.')
  }

  /** The last component is empty exactly when the name is empty or ends in a dot. */
  lemma {:induction false} LastComponentEmpty(name: string)
    ensures var parts := Components(name);
      parts[|parts| - 1] == [] <==> name == [] || name[|name| - 1] == '.'
  {
    if name != [] {
      var init := name[..|name| - 1];
      var c := name[|name| - 1];
      assert init + [c] == name;
      ComponentsSnoc(init, c);
    }
  }

  /** Private starts in `name + [c]` are those of `name`, plus possibly the new last position. */
  lemma PrivateAtSnoc(name: string, c: char)
    ensures (exists i :: PrivateAt(name + [c], i)) <==>
      (exists i :: PrivateAt(name, i)) || PrivateAt(name + [c], |name|)
  {
    var full := name + [c];
    assert forall i :: 0 <= i < |name| ==> (PrivateAt(name, i) <==> PrivateAt(full, i));
    if exists i :: PrivateAt(full, i) {
      var i :| PrivateAt(full, i);
      if i < |name| {
        assert PrivateAt(name, i);
      }
    }
  }

  /** A trailing dot opens an empty component, which does not make the name private. */
  lemma IgnoreModuleDot(name: string)
    ensures IgnoreModule(name + ".") <==> IgnoreModule(name)
  {
    ComponentsSnoc(name, '.');
    var before := Components(name);
    var after := Components(name + ".");
    assert after == before + [""];
    if IgnoreModule(name + ".") {
      var k :| 0 <= k < |after| && StartsWith(after[k], "_");
      assert k < |before| && after[k] == before[k];
    }
    if IgnoreModule(name) {
      var k :| 0 <= k < |before| && StartsWith(before[k], "_");
      assert after[k] == before[k];
    }
  }

  /** Any other character extends the last component, which starts with an
      underscore afterwards exactly when it did before or the character is
      an underscore opening it. */
  lemma IgnoreModuleOther(name: string, c: char)
    requires c != '.'
    ensures IgnoreModule(name + [c]) <==> IgnoreModule(name) || PrivateAt(name + [c], |name|)
  {
    ComponentsSnoc(name, c);
    LastComponentEmpty(name);
    var before := Components(name);
    var after := Components(name + [c]);
    var n := |before| - 1;
    assert |after| == |before|;
    var oldLast := before[n];
    assert after[n] == oldLast + [c];
    var opens := PrivateAt(name + [c], |name|);
    assert StartsWith(after[n], "_") <==> StartsWith(oldLast, "_") || opens by {
      if oldLast == [] {
        assert after[n] == [c];
      } else {
        assert after[n][..1] == oldLast[..1];
      }
    }
    if IgnoreModule(name + [c]) {
      var k :| 0 <= k < |after| && StartsWith(after[k], "_");
      if k < n {
        assert after[k] == before[k];
      }
    }
    if IgnoreModule(name) {
      var k :| 0 <= k < |before| && StartsWith(before[k], "_");
      if k < n {
        assert after[k] == before[k];
      }
    }
    if opens {
      assert StartsWith(after[n], "_");
    }
  }

  /** `ignore_module` holds exactly when an underscore starts the name or follows a dot. */
  lemma {:induction false} IgnoreModuleCharacterised(name: string)
    ensures IgnoreModule(name) <==> exists i :: PrivateAt(name, i)
  {
    if name == [] {
      assert Components(name) == [""];
      assert !StartsWith("", "_");
    } else {
      var init := name[..|name| - 1];
      var c := name[|name| - 1];
      assert init + [c] == name;
      IgnoreModuleCharacterised(init);
      PrivateAtSnoc(init, c);
      if c == '.' {
        assert init + "." == name;
        IgnoreModuleDot(init);
      } else {
        IgnoreModuleOther(init, c);
      }
    }
  }

  /** What `pkgutil.walk_packages` reports about one module, plus whether
      importing it would give a `setup` function. */
  datatype ModuleInfo = ModuleInfo(name: string, isPackage: bool, hasSetup: bool)

  /** A module is an extension when it is not private and is either a plain
      module or a package with a `setup` function. */
  predicate IsExtension(m: ModuleInfo) {
    !IgnoreModule(m.name) && (!m.isPackage || m.hasSetup)
  }

  /** The names `walk_extensions` yields, in walk order. */
  function ExtensionNames(modules: seq<ModuleInfo>): seq<string> {
    if modules == [] then []
    else
      var last := modules[|modules| - 1];
      ExtensionNames(modules[..|modules| - 1]) + (if IsExtension(last) then [last.name] else [])
  }

  /** Some walked module of that name is an extension. */
  predicate ExtensionNamed(modules: seq<ModuleInfo>, name: string) {
    exists k :: 0 <= k < |modules| && modules[k].name == name && IsExtension(modules[k])
  }

  /** Walking one more module adds it to the extensions of that name exactly when it is one. */
  lemma ExtensionNamedSnoc(modules: seq<ModuleInfo>, name: string)
    requires modules != []
    ensures var last := modules[|modules| - 1];
      ExtensionNamed(modules, name) <==>
        ExtensionNamed(modules[..|modules| - 1], name) || (last.name == name && IsExtension(last))
  {
    var init := modules[..|modules| - 1];
    if ExtensionNamed(init, name) {
      var k :| 0 <= k < |init| && init[k].name == name && IsExtension(init[k]);
      assert modules[k] == init[k];
    }
    if ExtensionNamed(modules, name) {
      var k :| 0 <= k < |modules| && modules[k].name == name && IsExtension(modules[k]);
      if k < |init| {
        assert init[k] == modules[k];
      }
    }
  }

  /** A name is yielded exactly when some walked module of that name is an extension. */
  lemma {:induction false} ExtensionNamesMembers(modules: seq<ModuleInfo>, name: string)
    ensures name in ExtensionNames(modules) <==> ExtensionNamed(modules, name)
  {
    if modules != [] {
      ExtensionNamesMembers(modules[..|modules| - 1], name);
      ExtensionNamedSnoc(modules, name);
    }
  }

  /** `walk_extensions`, over the modules the package walk reports. */
  method WalkExtensions(modules: seq<ModuleInfo>) returns (names: seq<string>)
    ensures names == ExtensionNames(modules)
  {
    names := [];
    for i := 0 to |modules|
      invariant names == ExtensionNames(modules[..i])
    {
      assert modules[..i + 1][..i] == modules[..i];
      var m := modules[i];
      if IgnoreModule(m.name) {
        continue;
      }
      if m.isPackage && !m.hasSetup {
        continue;
      }
      names := names + [m.name];
    }
    assert modules[..|modules|] == modules;
  }
}
