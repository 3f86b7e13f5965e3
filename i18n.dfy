/**
 * The translation helpers the JavaScript code calls: `ngettext`, whose
 * English catalogue picks the singular form exactly for a count of one, and
 * `interpolate`, which replaces each `%s` in turn by the next argument.
 * Translation catalogues themselves are not modelled: every string is its
 * own translation.
 */
module I18n {

  /** `ngettext(singular, plural, count)` with the English plural rule. */
  function NGettext(singular: string, plural: string, count: int): (r: string)
    ensures count == 1 ==> r == singular
    ensures count != 1 ==> r == plural
  {
    if count == 1 then singular else plural
  }

  /** `interpolate(fmt, args)`: each `%s` takes the next argument; a `%s`
      left without an argument becomes 'undefined'. */
  function Interpolate(fmt: string, args: seq<string>): (r: string)
    decreases |fmt|
  {
    if |fmt| < 2 then fmt
    else if fmt[..2] == "%s" then
      (if args == [] then "undefined" else args[0]) + Interpolate(fmt[2..], if args == [] then [] else args[1..])
    else [fmt[0]] + Interpolate(fmt[1..], args)
  }

  /** No `%s` occurs in `s`, and `s` does not end in a lone `%`. */
  predicate NoPlaceholder(s: string)
  {
    (forall i :: 0 <= i < |s| - 1 ==> !(s[i] == '%' && s[i + 1] == 's'))
  }

  /** A format without `%s` is left unchanged. */
  lemma {:induction false} InterpolatePlain(fmt: string, args: seq<string>)
    requires NoPlaceholder(fmt)
    ensures Interpolate(fmt, args) == fmt
    decreases |fmt|
  {
    if |fmt| >= 2 {
      assert fmt[..2] != "%s" by {
        assert fmt[..2] == [fmt[0], fmt[1]];
      }
      InterpolatePlain(fmt[1..], args);
    }
  }

  /** A format whose only `%s` ends it becomes its prefix followed by the argument. */
  lemma InterpolateTrailing(prefix: string, arg: string)
    requires NoPlaceholder(prefix)
    requires prefix == [] || prefix[|prefix| - 1] != '%'
    ensures Interpolate(prefix + "%s", [arg]) == prefix + arg
  {
    InterpolateTrailingFrom(prefix, arg);
  }

  lemma {:induction false} InterpolateTrailingFrom(prefix: string, arg: string)
    requires NoPlaceholder(prefix)
    requires prefix == [] || prefix[|prefix| - 1] != '%'
    ensures Interpolate(prefix + "%s", [arg]) == prefix + arg
    decreases |prefix|
  {
    var fmt := prefix + "%s";
    if prefix == [] {
      assert fmt == "%s";
      assert fmt[2..] == [];
    } else {
      var tail := prefix[1..];
      assert fmt[1..] == tail + "%s";
      assert fmt[0] == prefix[0];
      assert fmt[..2] != "%s" by {
        if |prefix| == 1 {
          assert fmt[1] == '%';
          assert prefix[0] != '%';
        } else {
          assert fmt[1] == prefix[1];
        }
        assert fmt[..2] == [fmt[0], fmt[1]];
      }
      assert Interpolate(fmt, [arg]) == [fmt[0]] + Interpolate(fmt[1..], [arg]);
      assert NoPlaceholder(tail) by {
        forall i | 0 <= i < |tail| - 1
          ensures !(tail[i] == '%' && tail[i + 1] == 's')
        {
          assert tail[i] == prefix[i + 1] && tail[i + 1] == prefix[i + 2];
        }
      }
      InterpolateTrailingFrom(tail, arg);
      assert prefix == [prefix[0]] + tail;
    }
  }
}
