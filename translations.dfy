/**
 * The translation hook of the site (src/hooks/use-language.ts): `t(key)`
 * splits a key on dots, walks the translation table of the current
 * language along the pieces and answers the string it reaches, or the key
 * itself when the walk leaves the table or ends on something other than a
 * string.
 */
module Translations {
  import opened Wrappers
  import opened Strings

  /**
   * A value of the translation table: a string, a nested object, or
   * anything else (a number, a boolean, `null`, `undefined`).
   */
  datatype TValue = Str(s: string) | Obj(fields: map<string, TValue>) | Other

  /** The table: one tree per language code. */
  type Table = map<string, TValue>

  /** `translations[language]`; a language the table lacks reads as `undefined`. */
  function Root(table: Table, language: string): TValue {
    if language in table then table[language] else Other
  }

  /** The loop's guard: a truthy object that has the segment as a key. */
  predicate HasField(v: TValue, k: string) {
    v.Obj? && k in v.fields
  }

  /** The value reached along `keys`, or `None` once a segment is missing. */
  function Walk(v: TValue, keys: seq<string>): Option<TValue> {
    if keys == [] then Some(v)
    else if HasField(v, keys[0]) then Walk(v.fields[keys[0]], keys[1..])
    else None
  }

  /** What `t(key)` answers. */
  function Lookup(table: Table, language: string, key: string): string {
    match Walk(Root(table, language), Split(key, '.'))
    case Some(Str(s)) => s
    case _ => key
  }

  /** The string `s` sits somewhere in the tree `v`. */
  predicate Holds(v: TValue, s: string) {
    match v
    case Str(x) => x == s
    case Obj(fields) => exists k :: k in fields && Holds(fields[k], s)
    case Other => false
  }

  /** Whatever the walk reaches lies within the tree it started from. */
  lemma {:induction false} WalkWithin(v: TValue, keys: seq<string>, s: string)
    requires Walk(v, keys) == Some(Str(s))
    ensures Holds(v, s)
  {
    if keys != [] {
      var child := v.fields[keys[0]];
      WalkWithin(child, keys[1..], s);
      assert keys[0] in v.fields && Holds(v.fields[keys[0]], s);
    }
  }

  /**
   * `t` answers either the key itself or a string stored under the
   * current language, and it answers the key whenever the table has no
   * entry for that language.
   */
  lemma LookupAnswers(table: Table, language: string, key: string)
    ensures var r := Lookup(table, language, key);
      r == key || (language in table && Holds(table[language], r))
    ensures language !in table ==> Lookup(table, language, key) == key
  {
    var w := Walk(Root(table, language), Split(key, '.'));
    if w.Some? && w.value.Str? {
      WalkWithin(Root(table, language), Split(key, '.'), w.value.s);
    }
  }

  /**
   * Conversely, a string stored along a path of dot-free segments is what
   * `t` answers for the dotted key of that path.
   */
  lemma LookupFinds(table: Table, language: string, path: seq<string>, s: string)
    requires |path| >= 1
    requires forall i :: 0 <= i < |path| ==> '.' !in path[i]
    requires language in table && Walk(table[language], path) == Some(Str(s))
    ensures Lookup(table, language, Join(path, '.')) == s
  {
    JoinSplit(path, '.');
  }

  /** A walk that stops early answers the key, whatever lies below. */
  lemma {:induction false} WalkStops(v: TValue, keys: seq<string>, i: nat)
    requires i < |keys|
    requires Walk(v, keys[..i]).Some? && !HasField(Walk(v, keys[..i]).value, keys[i])
    ensures Walk(v, keys) == None
  {
    if i > 0 {
      assert keys[..i][1..] == keys[1..][..i - 1];
      WalkStops(v.fields[keys[0]], keys[1..], i - 1);
    }
  }

  /** `t`: the `for...of` loop with its early return. */
  method Translate(table: Table, language: string, key: string) returns (r: string)
    ensures r == Lookup(table, language, key)
  {
    var keys := Split(key, '.');
    var value := Root(table, language);
    var i := 0;
    while i < |keys|
      invariant 0 <= i <= |keys|
      invariant Walk(Root(table, language), keys) == Walk(value, keys[i..])
    {
      var k := keys[i];
      assert keys[i..][1..] == keys[i + 1..];
      if value.Obj? && k in value.fields {
        value := value.fields[k];
      } else {
        return key;
      }
      i := i + 1;
    }
    if value.Str? {
      r := value.s;
    } else {
      r := key;
    }
  }

  /** What the language context hands the hook. */
  datatype LanguageContext<Setter> = LanguageContext(language: string, setLanguage: Setter)

  /** What `useLanguage` returns: the context's two members and `t`. */
  datatype LanguageHook<Setter> = LanguageHook(language: string, setLanguage: Setter, t: string -> string)

  /**
   * `useLanguage`: `language` and `setLanguage` are passed through
   * unchanged, and `t` translates in the context's language.
   */
  function UseLanguage<Setter>(context: LanguageContext<Setter>, table: Table): (hook: LanguageHook<Setter>)
    ensures hook.language == context.language && hook.setLanguage == context.setLanguage
    ensures forall key :: hook.t(key) == Lookup(table, context.language, key)
  {
    LanguageHook(context.language, context.setLanguage, (key: string) => Lookup(table, context.language, key))
  }
}
