/** The part of an options resolver that the loader relies on: an option
    schema of defaults, required and optional names, allowed values and
    normalisers, and the resolution of a user-supplied options array against
    it. Only the resolution semantics are modelled, not the library. */
module OptionsResolver {
  import opened Php

  /** The normalisers the loader installs. */
  datatype Normaliser =
    | ToList       // `function ($o, $v) { return (array) $v; }`
    | NullIfUnset  // `function ($o, $v) { return !isset($v) ? null : $v; }`

  datatype Schema = Schema(
    defaults: Entries,                  // setDefaults, in declaration order
    required: set<string>,              // setRequired
    optional: set<string>,              // setOptional
    allowed: map<string, seq<Value>>,   // setAllowedValues
    normalisers: map<string, Normaliser>)

  /** The exceptions resolution raises. */
  datatype ResolveError =
    | NotAnArray            // the options passed are not an array
    | UndefinedOptions      // an option the schema does not declare
    | MissingOptions        // a required option without a value
    | InvalidOptionValue    // a value outside the allowed values of its option

  /** A name the schema declares, as a default, required or optional option. */
  predicate Declared(s: Schema, k: Key)
  {
    k.StrKey? && (HasKey(s.defaults, k) || k.s in s.required || k.s in s.optional)
  }

  predicate AllDeclared(s: Schema, a: Entries)
  {
    a == [] || (Declared(s, a[0].0) && AllDeclared(s, a[1..]))
  }

  /** The allowed values of an option restrict only a value that is set:
      null always passes. */
  predicate ValueAllowed(s: Schema, k: Key, v: Value)
  {
    !(k.StrKey? && k.s in s.allowed) || v == Null || v in s.allowed[k.s]
  }

  predicate AllAllowed(s: Schema, a: Entries)
  {
    a == [] || (ValueAllowed(s, a[0].0, a[0].1) && AllAllowed(s, a[1..]))
  }

  /** The option `k`, when given in `a`, has an allowed value. */
  predicate GivenAllowed(s: Schema, a: Entries, k: Key)
  {
    HasKey(a, k) ==> ValueAllowed(s, k, Lookup(a, k).value)
  }

  predicate RequiredPresent(s: Schema, a: Entries)
  {
    forall n | n in s.required :: HasKey(s.defaults, StrKey(n)) || HasKey(a, StrKey(n))
  }

  function ApplyNormaliser(n: Normaliser, v: Value): Value
  {
    match n
    case ToList => Arr(CastToArray(v))
    case NullIfUnset => if v == Null then Null else v
  }

  /** The value an option takes once its normaliser, if any, has run. */
  function Normalised(s: Schema, k: Key, v: Value): Value
  {
    if k.StrKey? && k.s in s.normalisers then ApplyNormaliser(s.normalisers[k.s], v) else v
  }

  /** Every option present is passed through its normaliser. */
  function NormaliseAll(s: Schema, a: Entries): Entries
  {
    if a == [] then [] else [(a[0].0, Normalised(s, a[0].0, a[0].1))] + NormaliseAll(s, a[1..])
  }

  /** Normalising keeps the keys and changes each value by its option's
      normaliser. */
  lemma {:induction false} NormaliseAllLookup(s: Schema, a: Entries, k: Key)
    ensures Lookup(NormaliseAll(s, a), k) == match Lookup(a, k)
                                             case Some(v) => Some(Normalised(s, k, v))
                                             case None => None
  {
    if a != [] {
      NormaliseAllLookup(s, a[1..], k);
    }
  }

  /** Resolution: reject undeclared options first, then missing required
      ones, then disallowed values; otherwise the defaults overridden by the
      given options, each normalised. */
  function Resolve(s: Schema, options: Value): (r: Result<Entries, ResolveError>)
    ensures r == Err(NotAnArray) <==> !options.Arr?
    ensures r.Ok? ==> options.Arr? && AllDeclared(s, options.entries) && RequiredPresent(s, options.entries) && AllAllowed(s, options.entries)
  {
    if !options.Arr? then Err(NotAnArray)
    else if !AllDeclared(s, options.entries) then Err(UndefinedOptions)
    else if !RequiredPresent(s, options.entries) then Err(MissingOptions)
    else if !AllAllowed(s, options.entries) then Err(InvalidOptionValue)
    else Ok(NormaliseAll(s, PutAll(s.defaults, options.entries)))
  }

  /** The value an option receives before normalisation: the given one,
      or else its default. */
  function Supplied(s: Schema, given: Entries, k: Key): Option<Value>
  {
    if HasKey(given, k) then Lookup(given, k) else Lookup(s.defaults, k)
  }

  lemma {:induction false} AllDeclaredHasKey(s: Schema, a: Entries, k: Key)
    requires AllDeclared(s, a) && HasKey(a, k)
    ensures Declared(s, k)
  {
    if a[0].0 != k {
      AllDeclaredHasKey(s, a[1..], k);
    }
  }

  lemma {:induction false} AllAllowedLookup(s: Schema, a: Entries, k: Key)
    requires AllAllowed(s, a) && HasKey(a, k)
    ensures ValueAllowed(s, k, Lookup(a, k).value)
  {
    if a[0].0 != k {
      AllAllowedLookup(s, a[1..], k);
    }
  }

  /** What a successful resolution yields: every option holds its given value
      or else its default, normalised; nothing undeclared is given; every
      required option has a value; every given value is allowed. */
  lemma ResolvedOption(s: Schema, options: Value, k: Key)
    requires options.Arr? && UniqueKeys(options.entries)
    requires Resolve(s, options).Ok?
    ensures Lookup(Resolve(s, options).value, k)
         == match Supplied(s, options.entries, k)
            case Some(v) => Some(Normalised(s, k, v))
            case None => None
    ensures HasKey(options.entries, k) ==> Declared(s, k) && ValueAllowed(s, k, Lookup(options.entries, k).value)
    ensures k.StrKey? && k.s in s.required ==> HasKey(Resolve(s, options).value, k)
  {
    var given := options.entries;
    NormaliseAllLookup(s, PutAll(s.defaults, given), k);
    PutAllLookup(s.defaults, given, k);
    LastLookupUnique(given, k);
    if HasKey(given, k) {
      AllDeclaredHasKey(s, given, k);
      AllAllowedLookup(s, given, k);
    }
  }

  /** `AllDeclared` is the recursive form of "every given name is declared". */
  lemma AllDeclaredIff(s: Schema, a: Entries)
    ensures AllDeclared(s, a) <==> forall k :: HasKey(a, k) ==> Declared(s, k)
  {
    if forall k :: HasKey(a, k) ==> Declared(s, k) {
      DeclaredEverywhere(s, a);
    }
    if AllDeclared(s, a) {
      forall k | HasKey(a, k) ensures Declared(s, k) { AllDeclaredHasKey(s, a, k); }
    }
  }

  /** `AllAllowed` is the recursive form of "every given value is allowed". */
  lemma AllAllowedIff(s: Schema, a: Entries)
    requires UniqueKeys(a)
    ensures AllAllowed(s, a) <==> forall k :: GivenAllowed(s, a, k)
  {
    if forall k :: GivenAllowed(s, a, k) {
      AllowedEverywhere(s, a);
    }
    if AllAllowed(s, a) {
      forall k ensures GivenAllowed(s, a, k) {
        if HasKey(a, k) { AllAllowedLookup(s, a, k); }
      }
    }
  }

  /** Which exception resolution raises, stated over the given names and
      values: an undeclared name wins over a missing required option, which
      wins over a disallowed value; resolution succeeds exactly when none of
      the three occurs. */
  lemma ResolveOutcome(s: Schema, options: Value)
    requires options.Arr? && UniqueKeys(options.entries)
    ensures var a := options.entries;
            var declared := forall k :: HasKey(a, k) ==> Declared(s, k);
            var allowed := forall k :: GivenAllowed(s, a, k);
            && (!declared ==> Resolve(s, options) == Err(UndefinedOptions))
            && (declared && !RequiredPresent(s, a) ==> Resolve(s, options) == Err(MissingOptions))
            && (declared && RequiredPresent(s, a) && !allowed ==> Resolve(s, options) == Err(InvalidOptionValue))
            && (Resolve(s, options).Ok? <==> declared && RequiredPresent(s, a) && allowed)
  {
    AllDeclaredIff(s, options.entries);
    AllAllowedIff(s, options.entries);
  }

  lemma {:induction false} DeclaredEverywhere(s: Schema, a: Entries)
    requires forall k :: HasKey(a, k) ==> Declared(s, k)
    ensures AllDeclared(s, a)
  {
    if a != [] {
      assert HasKey(a, a[0].0);
      forall k | HasKey(a[1..], k) ensures Declared(s, k) { assert HasKey(a, k); }
      DeclaredEverywhere(s, a[1..]);
    }
  }

  lemma {:induction false} AllowedEverywhere(s: Schema, a: Entries)
    requires UniqueKeys(a)
    requires forall k :: GivenAllowed(s, a, k)
    ensures AllAllowed(s, a)
  {
    if a != [] {
      assert GivenAllowed(s, a, a[0].0);
      forall k ensures GivenAllowed(s, a[1..], k) {
        if HasKey(a[1..], k) { assert GivenAllowed(s, a, k) && k != a[0].0; }
      }
      AllowedEverywhere(s, a[1..]);
    }
  }
}
