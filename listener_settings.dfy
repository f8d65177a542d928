/**
 * The check of the secure setting `enabled_notification_listeners`.
 *
 * The setting is a colon-separated list of flattened component names
 * `package/class`.  The activity is "enabled" when one of those entries
 * names its own package with exactly one class part.
 */
module ListenerSettings {
  import opened Wrappers

  /** Separator between the entries of the setting. */
  const EntrySeparator: char := ':'

  /** Separator between package and class inside one flattened component name. */
  const ComponentSeparator: char := '/'

  /** Number of occurrences of `c` in `s`. */
  function Occurrences(s: string, c: char): nat
  {
    if s == [] then 0 else (if s[0] == c then 1 else 0) + Occurrences(s[1..], c)
  }

  /** Occurrences add up over a concatenation. */
  lemma {:induction false} OccurrencesOfConcat(a: string, b: string, c: char)
    ensures Occurrences(a + b, c) == Occurrences(a, c) + Occurrences(b, c)
  {
    if a != [] {
      assert (a + b)[1..] == a[1..] + b;
      OccurrencesOfConcat(a[1..], b, c);
    } else {
      assert a + b == b;
    }
  }

  /** No occurrence means the character does not appear. */
  lemma {:induction false} NoOccurrences(s: string, c: char)
    ensures Occurrences(s, c) == 0 <==> c !in s
  {
    if s != [] {
      NoOccurrences(s[1..], c);
      assert s == [s[0]] + s[1..];
    }
  }

  /**
   * Kotlin's `String.split` with one single-character delimiter and no limit:
   * every field between two delimiters is kept, empty ones included (also a
   * leading or trailing one), so there is always one field more than there
   * are delimiters, and no field contains the delimiter.
   */
  function Split(s: string, sep: char): (fields: seq<string>)
    ensures |fields| == Occurrences(s, sep) + 1
    ensures forall f :: f in fields ==> sep !in f
  {
    if s == [] then [""]
    else
      var rest := Split(s[1..], sep);
      if s[0] == sep then [""] + rest
      else [[s[0]] + rest[0]] + rest[1..]
  }

  /** The fields put back together with the delimiter between them. */
  function Join(fields: seq<string>, sep: char): string
  {
    if |fields| == 0 then ""
    else if |fields| == 1 then fields[0]
    else fields[0] + [sep] + Join(fields[1..], sep)
  }

  /** Splitting loses nothing: joining the fields again gives back the string. */
  lemma {:induction false} JoinSplit(s: string, sep: char)
    ensures Join(Split(s, sep), sep) == s
  {
    if s != [] {
      var rest := Split(s[1..], sep);
      JoinSplit(s[1..], sep);
      if s[0] == sep {
        assert ([""] + rest)[1..] == rest;
      } else if |rest| > 1 {
        var fields := [[s[0]] + rest[0]] + rest[1..];
        assert fields[1..] == rest[1..];
        assert Join(rest, sep) == rest[0] + [sep] + Join(rest[1..], sep);
        assert s == [s[0]] + s[1..];
      } else {
        assert s == [s[0]] + s[1..];
      }
    }
  }

  /** A string without the delimiter is a single field. */
  lemma {:induction false} SplitWithoutSeparator(f: string, sep: char)
    requires sep !in f
    ensures Split(f, sep) == [f]
  {
    if f != [] {
      SplitWithoutSeparator(f[1..], sep);
      assert [f[0]] + f[1..] == f;
    }
  }

  /** A first field followed by the delimiter is split off in front of the rest. */
  lemma {:induction false} SplitAfterField(f: string, t: string, sep: char)
    requires sep !in f
    ensures Split(f + [sep] + t, sep) == [f] + Split(t, sep)
  {
    var s := f + [sep] + t;
    if f == [] {
      assert s[1..] == t;
    } else {
      assert s[1..] == f[1..] + [sep] + t;
      SplitAfterField(f[1..], t, sep);
      assert [f[0]] + f[1..] == f;
    }
  }

  /** Splitting inverts joining, for a non-empty list of fields without the delimiter. */
  lemma {:induction false} SplitJoin(fields: seq<string>, sep: char)
    requires |fields| >= 1
    requires forall f :: f in fields ==> sep !in f
    ensures Split(Join(fields, sep), sep) == fields
  {
    if |fields| == 1 {
      SplitWithoutSeparator(fields[0], sep);
    } else {
      assert fields[0] in fields;
      assert forall f :: f in fields[1..] ==> f in fields;
      SplitJoin(fields[1..], sep);
      SplitAfterField(fields[0], Join(fields[1..], sep), sep);
      assert [fields[0]] + fields[1..] == fields;
    }
  }

  /** Empty fields survive the split, in the middle and at the end. */
  lemma KotlinSplitKeepsEmptyFields()
    ensures Split("a::b", ':') == ["a", "", "b"]
    ensures Split("a:", ':') == ["a", ""]
    ensures Split("", ':') == [""]
  {
    assert Join(["b"], ':') == "b";
    assert Join(["", "b"], ':') == ":b";
    assert Join(["a", "", "b"], ':') == "a::b";
    SplitJoin(["a", "", "b"], ':');
    assert Join([""], ':') == "";
    assert Join(["a", ""], ':') == "a:";
    SplitJoin(["a", ""], ':');
  }

  /**
   * One entry of the setting names package `pkg`: split on '/', it has
   * exactly two parts and the first is `pkg` (the class part is not looked at).
   */
  predicate IsComponentFor(name: string, pkg: string)
  {
    var parts := Split(name, ComponentSeparator);
    |parts| == 2 && parts[0] == pkg
  }

  /**
   * The same condition written without splitting: the entry is `pkg`, one
   * '/', then a class part with no '/' in it, and `pkg` itself has no '/'.
   */
  predicate IsFlattenedComponentOf(name: string, pkg: string)
  {
    && ComponentSeparator !in pkg
    && |pkg| < |name|
    && name[..|pkg|] == pkg
    && name[|pkg|] == ComponentSeparator
    && ComponentSeparator !in name[|pkg| + 1..]
  }

  /** The split-based check and the direct description agree on every entry. */
  lemma {:induction false} ComponentMatchIff(name: string, pkg: string)
    ensures IsComponentFor(name, pkg) <==> IsFlattenedComponentOf(name, pkg)
  {
    var parts := Split(name, ComponentSeparator);
    if IsComponentFor(name, pkg) {
      JoinSplit(name, ComponentSeparator);
      assert parts[0] in parts && parts[1] in parts;
      assert parts[1..] == [parts[1]];
      assert name == parts[0] + [ComponentSeparator] + parts[1];
      assert name[|pkg| + 1..] == parts[1];
    }
    if IsFlattenedComponentOf(name, pkg) {
      var cls := name[|pkg| + 1..];
      assert name == pkg + [ComponentSeparator] + cls;
      assert [pkg, cls][1..] == [cls];
      assert Join([pkg, cls], ComponentSeparator) == name;
      SplitJoin([pkg, cls], ComponentSeparator);
    }
  }

  /** Any class part without '/' is accepted: the class is ignored. */
  lemma AnyClassMatches(pkg: string, cls: string)
    requires ComponentSeparator !in pkg && ComponentSeparator !in cls
    ensures IsComponentFor(pkg + [ComponentSeparator] + cls, pkg)
  {
    var name := pkg + [ComponentSeparator] + cls;
    assert name[..|pkg|] == pkg && name[|pkg| + 1..] == cls;
    ComponentMatchIff(name, pkg);
  }

  /** An entry with no '/' or with two or more never matches, whatever it begins with. */
  lemma SlashCountMustBeOne(name: string, pkg: string)
    requires Occurrences(name, ComponentSeparator) != 1
    ensures !IsComponentFor(name, pkg)
  {
  }

  /**
   * The package is compared by equality: if `q/cls` matches `pkg` then
   * `q` is `pkg`, so a longer package sharing a prefix with `pkg` is refused.
   */
  lemma PackageComparedByEquality(q: string, cls: string, pkg: string)
    ensures IsComponentFor(q + [ComponentSeparator] + cls, pkg) ==> q == pkg
  {
    var name := q + [ComponentSeparator] + cls;
    if IsComponentFor(name, pkg) {
      OccurrencesOfConcat(q + [ComponentSeparator], cls, ComponentSeparator);
      OccurrencesOfConcat(q, [ComponentSeparator], ComponentSeparator);
      assert Occurrences([ComponentSeparator], ComponentSeparator) == 1;
      NoOccurrences(q, ComponentSeparator);
      NoOccurrences(cls, ComponentSeparator);
      assert [q, cls][1..] == [cls];
      assert Join([q, cls], ComponentSeparator) == name;
      SplitJoin([q, cls], ComponentSeparator);
    }
  }

  /** The special case of a package that extends `pkg`. */
  lemma LongerPackageRejected(pkg: string, suffix: string, cls: string)
    requires suffix != []
    ensures !IsComponentFor(pkg + suffix + [ComponentSeparator] + cls, pkg)
  {
    PackageComparedByEquality(pkg + suffix, cls, pkg);
    assert |pkg + suffix| > |pkg|;
  }

  /**
   * `isNotificationServiceEnabled` as a predicate: the setting is present,
   * not empty, and one of its entries names package `pkg`.
   */
  predicate Enabled(flat: Option<string>, pkg: string)
  {
    match flat
    case None => false
    case Some(s) => s != "" && exists name :: name in Split(s, EntrySeparator) && IsComponentFor(name, pkg)
  }

  /** An absent or empty setting never enables the listener. */
  lemma MissingOrEmptyIsDisabled(pkg: string)
    ensures !Enabled(None, pkg)
    ensures !Enabled(Some(""), pkg)
  {
  }

  /** The empty entry never names a package, so the emptiness test cannot change the answer. */
  lemma EmptyEntryNeverMatches(pkg: string)
    ensures !IsComponentFor("", pkg)
  {
  }

  /**
   * The setting enables `pkg` exactly when some colon-separated entry is
   * `pkg`, one '/', and a class part without '/'.
   */
  lemma EnabledIff(s: string, pkg: string)
    ensures Enabled(Some(s), pkg) <==>
      exists name :: name in Split(s, EntrySeparator) && IsFlattenedComponentOf(name, pkg)
  {
    forall name | name in Split(s, EntrySeparator) {
      ComponentMatchIff(name, pkg);
    }
    if s == "" {
      assert Split(s, EntrySeparator) == [""];
    }
  }

  /** Only the set of entries matters, not their order or repetition. */
  lemma EnabledDependsOnlyOnEntries(s1: string, s2: string, pkg: string)
    requires forall name :: name in Split(s1, EntrySeparator) <==> name in Split(s2, EntrySeparator)
    ensures Enabled(Some(s1), pkg) == Enabled(Some(s2), pkg)
  {
  }

  /** Reordering the entries of a setting does not change the answer. */
  lemma EnabledUnderReordering(names1: seq<string>, names2: seq<string>, pkg: string)
    requires |names1| >= 1
    requires multiset(names1) == multiset(names2)
    requires forall name :: name in names1 ==> EntrySeparator !in name
    ensures Enabled(Some(Join(names1, EntrySeparator)), pkg) == Enabled(Some(Join(names2, EntrySeparator)), pkg)
  {
    assert forall name :: name in names1 <==> name in names2 by {
      forall name ensures name in names1 <==> name in names2 {
        assert name in names1 <==> name in multiset(names1);
        assert name in names2 <==> name in multiset(names2);
      }
    }
    assert names1[0] in multiset(names2);
    SplitJoin(names1, EntrySeparator);
    SplitJoin(names2, EntrySeparator);
    EnabledDependsOnlyOnEntries(Join(names1, EntrySeparator), Join(names2, EntrySeparator), pkg);
  }

  /**
   * The loop of `isNotificationServiceEnabled`: split the setting on ':',
   * split each entry on '/', return true at the first entry with two parts
   * whose first part is the package, false otherwise.
   */
  method IsNotificationServiceEnabled(flat: Option<string>, pkg: string) returns (enabled: bool)
    ensures enabled == Enabled(flat, pkg)
  {
    if flat.Some? && flat.value != "" {
      var names := Split(flat.value, EntrySeparator);
      var i := 0;
      while i < |names|
        invariant 0 <= i <= |names|
        invariant forall j :: 0 <= j < i ==> !IsComponentFor(names[j], pkg)
      {
        var componentName := Split(names[i], ComponentSeparator);
        if |componentName| == 2 && componentName[0] == pkg {
          assert names[i] in names;
          return true;
        }
        i := i + 1;
      }
      forall name | name in names
        ensures !IsComponentFor(name, pkg)
      {
        var j :| 0 <= j < |names| && names[j] == name;
      }
    }
    return false;
  }
}
