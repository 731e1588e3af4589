/**
  The print options a caller can register for a member or a type, and what
  applying them to a value's text produces. A formatter chain is applied
  link by link, in registration order.
 */
module Formatters {

  /** Converts a value's text to the given culture. Culture-aware conversion is
      a call into the host platform, so the model takes it as a parameter. */
  type CultureConversion = (string, string) -> string

  /** The print options used by the object printer and its tests: upper-casing,
      trimming to a maximum length, appending a fixed text, and conversion to
      a culture. */
  datatype Formatter =
    | Upper
    | Truncate(maxLength: nat)
    | Suffix(text: string)
    | Culture(name: string)

  function UpperChar(c: char): char {
    if 'a' <= c <= 'z' then (c as int - 'a' as int + 'A' as int) as char else c
  }

  /** Upper-cases every letter of `s`, keeping its length. */
  function ToUpper(s: string): (r: string)
    ensures |r| == |s|
    ensures forall i :: 0 <= i < |s| ==> r[i] == UpperChar(s[i])
  {
    if s == [] then [] else [UpperChar(s[0])] + ToUpper(s[1..])
  }

  /** Keeps at most the first `maxLength` characters of `s`: a text no longer
      than `maxLength` is left as it is. */
  function TrimmedToLength(s: string, maxLength: nat): (r: string)
    ensures |r| == if |s| <= maxLength then |s| else maxLength
    ensures r == s[..|r|]
  {
    if |s| <= maxLength then s else s[..maxLength]
  }

  /** The text one formatter produces from the text it is given. */
  function Apply(f: Formatter, s: string, conv: CultureConversion): string {
    match f
    case Upper => ToUpper(s)
    case Truncate(n) => TrimmedToLength(s, n)
    case Suffix(t) => s + t
    case Culture(c) => conv(c, s)
  }

  /** Applies the links of `chain` to `s`, the first registered link first.
      An empty chain leaves the text as it is. */
  function ApplyChain(chain: seq<Formatter>, s: string, conv: CultureConversion): string
    decreases |chain|
  {
    if chain == [] then s else ApplyChain(chain[1..], Apply(chain[0], s, conv), conv)
  }

  /** Appending a link to a chain applies it after everything already there. */
  lemma {:induction false} ApplyChainSnoc(chain: seq<Formatter>, f: Formatter, s: string, conv: CultureConversion)
    ensures ApplyChain(chain + [f], s, conv) == Apply(f, ApplyChain(chain, s, conv), conv)
    decreases |chain|
  {
    if chain == [] {
      assert [f][1..] == [];
    } else {
      assert (chain + [f])[1..] == chain[1..] + [f];
      ApplyChainSnoc(chain[1..], f, Apply(chain[0], s, conv), conv);
    }
  }

  /** Running two chains one after the other is running their concatenation. */
  lemma {:induction false} ApplyChainConcat(first: seq<Formatter>, second: seq<Formatter>, s: string, conv: CultureConversion)
    ensures ApplyChain(first + second, s, conv) == ApplyChain(second, ApplyChain(first, s, conv), conv)
    decreases |first|
  {
    if first == [] {
      assert first + second == second;
    } else {
      assert (first + second)[1..] == first[1..] + second;
      ApplyChainConcat(first[1..], second, Apply(first[0], s, conv), conv);
    }
  }
}
