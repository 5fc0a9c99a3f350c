/**
 * The search-provider icon lookup of the web console: the provider name is
 * trimmed and lower-cased and looked up in a registry of FontAwesome icons,
 * with a globe as the default.
 *
 * The registry is a JavaScript object literal, so an indexed read also sees
 * the keys every object inherits. Two of them are already lower case,
 * "constructor" and "__proto__", and reading them yields a function and an
 * object, neither of which is nullish, so the `??` default does not apply.
 * IconLookupAsWritten models that; ProviderIcon is the lookup over the
 * registry's own keys, which the rest of the model uses.
 */
module ProviderIcons {
  import opened Wrappers
  import opened Text

  /** A FontAwesome [prefix, iconName] pair. */
  datatype Icon = Icon(prefix: string, name: string)

  const BraveIcon: Icon := Icon("fab", "brave")
  const DefaultIcon: Icon := Icon("fas", "globe")

  /** The registry's own entries. */
  function RegistryIcon(key: string): (r: Option<Icon>)
    ensures r.Some? <==> key == "brave"
    ensures r.Some? ==> r.value == BraveIcon
  {
    if key == "brave" then Some(BraveIcon) else None
  }

  /** The lookup key: the provider name trimmed and lower-cased. */
  function Key(provider: string): string {
    Lower(JsTrim(provider))
  }

  /** getSearchProviderIcon over the registry's own keys. */
  function ProviderIcon(provider: string): (r: Icon)
    ensures provider == "" ==> r == DefaultIcon
    ensures r == BraveIcon <==> Key(provider) == "brave"
    ensures r == BraveIcon || r == DefaultIcon
  {
    if provider == "" then DefaultIcon
    else match RegistryIcon(Key(provider))
      case Some(icon) => icon
      case None => DefaultIcon
  }

  // ---------------------------------------------------------------------
  // The lookup as written

  /** What an indexed read of the registry object can give back. */
  datatype Lookup = Found(icon: Icon) | Inherited(key: string)

  /** The lower-case keys every JavaScript object inherits. */
  predicate InheritedKey(key: string) {
    key == "constructor" || key == "__proto__"
  }

  /** `PROVIDER_ICONS[key] ?? DEFAULT_ICON`, inherited keys included. */
  function IconLookupAsWritten(provider: string): (r: Lookup)
    ensures r.Inherited? <==> provider != "" && InheritedKey(Key(provider))
    ensures r.Found? ==> r.icon == ProviderIcon(provider)
  {
    if provider == "" then Found(DefaultIcon)
    else if RegistryIcon(Key(provider)).Some? then Found(RegistryIcon(Key(provider)).value)
    else if InheritedKey(Key(provider)) then Inherited(Key(provider))
    else Found(DefaultIcon)
  }

  /** The provider name " Constructor" gets no icon pair back. */
  lemma AsWrittenConstructorNotAnIcon()
    ensures IconLookupAsWritten(" Constructor").Inherited?
  {
    ConstructorKey();
  }

  lemma ConstructorKey()
    ensures Key(" Constructor") == "constructor"
  {
    TrimConstructor();
    LowerConstructor();
  }

  lemma TrimConstructor()
    ensures JsTrim(" Constructor") == "Constructor"
  {
    var name := "Constructor";
    assert name[0] == 'C' && name[|name| - 1] == 'r';
    assert " Constructor" == " " + name;
    TrimLeftPadded(" ", name, IsJsSpace);
    assert name + "" == name;
    TrimRightPadded(name, "", IsJsSpace);
  }

  lemma LowerConstructor()
    ensures Lower("Constructor") == "constructor"
  {
  }

  // ---------------------------------------------------------------------
  // Normalisation

  lemma {:induction false} TrimLeftPadded(w: string, p: string, sp: char -> bool)
    requires AllSpace(w, sp) && p != [] && !sp(p[0])
    ensures TrimLeft(w + p, sp) == p
    decreases |w|
  {
    if w == [] {
      assert w + p == p;
    } else {
      assert (w + p)[1..] == w[1..] + p;
      TrimLeftPadded(w[1..], p, sp);
    }
  }

  lemma {:induction false} TrimRightPadded(p: string, w: string, sp: char -> bool)
    requires AllSpace(w, sp) && p != [] && !sp(p[|p| - 1])
    ensures TrimRight(p + w, sp) == p
    decreases |w|
  {
    if w == [] {
      assert p + w == p;
    } else {
      assert (p + w)[..|p + w| - 1] == p + w[..|w| - 1];
      TrimRightPadded(p, w[..|w| - 1], sp);
    }
  }

  /** 'brave' in any case and with any surrounding whitespace gets the Brave icon. */
  lemma BravePadded(before: string, name: string, after: string)
    requires AllSpace(before, IsJsSpace) && AllSpace(after, IsJsSpace)
    requires Lower(name) == "brave"
    ensures ProviderIcon(before + name + after) == BraveIcon
  {
    assert !IsJsSpace(name[0]) && !IsJsSpace(name[|name| - 1]);
    assert before + name + after == before + (name + after);
    TrimLeftPadded(before, name + after, IsJsSpace);
    TrimRightPadded(name, after, IsJsSpace);
  }

  /** Lower-casing leaves whitespace where it was. */
  lemma LowerKeepsTrimmed(t: string)
    requires t == [] || (!IsJsSpace(t[0]) && !IsJsSpace(t[|t| - 1]))
    ensures JsTrim(Lower(t)) == Lower(t)
  {
    var l := Lower(t);
    if t != [] {
      LowerCharNotSpace(t[0]);
      LowerCharNotSpace(t[|t| - 1]);
      assert !IsJsSpace(l[0]) && TrimLeft(l, IsJsSpace) == l;
      assert !IsJsSpace(l[|l| - 1]) && TrimRight(l, IsJsSpace) == l;
    }
  }

  /** Lower-casing a character that is not whitespace gives one that is not whitespace either. */
  lemma LowerCharNotSpace(c: char)
    requires !IsJsSpace(c)
    ensures !IsJsSpace(LowerChar(c))
  {
  }

  /** Normalising a name first does not change its icon. */
  lemma KeyIdempotent(provider: string)
    ensures Key(Key(provider)) == Key(provider)
    ensures provider != "" && Key(provider) != "" ==> ProviderIcon(Key(provider)) == ProviderIcon(provider)
  {
    var t := JsTrim(provider);
    var l := TrimLeft(provider, IsJsSpace);
    if t != [] {
      assert t[0] == l[0];
    }
    LowerKeepsTrimmed(t);
    LowerIdempotent(t);
  }
}
