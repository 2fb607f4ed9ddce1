/** Prop resolution shared by Select, MagicModal, TextField and InputField:
    the three-tier "explicit prop, else theme value, else built-in default"
    chain written with `||`, the guarded theme lookup written with `&&`,
    and the clipboard guard of the two text inputs. */
module Props {
  import opened Js

  /** `explicit || themed || fallback`: the first truthy candidate wins, so a
      falsy explicit value such as "" falls through to the theme. */
  function Resolve(explicit: Value, themed: Value, fallback: Value): (r: Value)
    ensures Truthy(explicit) ==> r == explicit
    ensures !Truthy(explicit) && Truthy(themed) ==> r == themed
    ensures !Truthy(explicit) && !Truthy(themed) ==> r == fallback
    ensures r == explicit || r == themed || r == fallback
  {
    Or(Or(explicit, themed), fallback)
  }

  /** `theme && theme?.section && theme?.section?.key`: when any link of the
      chain is missing the value is falsy, otherwise it is the entry. */
  function ThemeEntry(theme: Value, section: string, key: string): (r: Value)
    ensures Truthy(r) <==> Truthy(OptGet(OptGet(theme, section), key))
    ensures Truthy(r) ==> r == OptGet(OptGet(theme, section), key)
  {
    And(theme, And(OptGet(theme, section), OptGet(OptGet(theme, section), key)))
  }

  /** `got` is the explicit value if truthy, else the theme's
      `section.key` entry if truthy, else the fallback. */
  predicate ThemedChoice(explicit: Value, theme: Value, section: string, key: string, fallback: Value, got: Value) {
    && (Truthy(explicit) ==> got == explicit)
    && ((!Truthy(explicit) && Truthy(OptGet(OptGet(theme, section), key)))
          ==> got == OptGet(OptGet(theme, section), key))
    && ((!Truthy(explicit) && !Truthy(OptGet(OptGet(theme, section), key))) ==> got == fallback)
  }

  /** The resolver as every component uses it. */
  function Themed(explicit: Value, theme: Value, section: string, key: string, fallback: Value): (r: Value)
    ensures ThemedChoice(explicit, theme, section, key, fallback, r)
  {
    Resolve(explicit, ThemeEntry(theme, section, key), fallback)
  }

  /** The resolution never yields a falsy value unless every candidate is falsy;
      in particular an empty explicit string never shadows the theme. */
  lemma ResolveSkipsFalsy(explicit: Value, themed: Value, fallback: Value)
    ensures Truthy(Resolve(explicit, themed, fallback)) <==> (Truthy(explicit) || Truthy(themed) || Truthy(fallback))
    ensures Resolve(Str(""), themed, fallback) == Resolve(Undefined, themed, fallback)
  {
  }

  /** `onPaste = true` / `onCopy = true` with `if (!flag) e.preventDefault()`:
      the event is blocked exactly when the flag was passed and is falsy. */
  predicate ClipboardBlocked(flag: Value)
    ensures ClipboardBlocked(flag) <==> !flag.Undefined? && !Truthy(flag)
  {
    !Truthy(Default(flag, Bool(true)))
  }
}
