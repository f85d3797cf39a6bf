/** The food-scan page (src/app/user/scan/page.tsx): how a food's effect on a dosha
    is shown (an arrow and a colour), the colour of each taste, and the list of
    tastes drawn from the analysis. */
module Scan {
  import opened Wrappers
  import opened Text

  /** The three readings of an effect text. */
  datatype DoshaEffect = Raises | Lowers | Neutral

  const UpArrow: char := '\U{2191}'
  const DownArrow: char := '\U{2193}'

  /** The effect text mentions raising the dosha ("increase" or "aggravate"). */
  predicate MentionsRaise(effect: string) {
    Contains(ToLower(effect), "increase") || Contains(ToLower(effect), "aggravate")
  }

  /** The effect text mentions lowering the dosha ("decrease" or "pacif"). */
  predicate MentionsLower(effect: string) {
    Contains(ToLower(effect), "decrease") || Contains(ToLower(effect), "pacif")
  }

  /** The classification both display helpers make: a raise keyword wins over a
      lower keyword. */
  function Classify(effect: string): (e: DoshaEffect)
    ensures e == Raises <==> MentionsRaise(effect)
    ensures e == Lowers <==> !MentionsRaise(effect) && MentionsLower(effect)
    ensures e == Neutral <==> !MentionsRaise(effect) && !MentionsLower(effect)
  {
    if MentionsRaise(effect) then Raises
    else if MentionsLower(effect) then Lowers
    else Neutral
  }

  /** `getDoshaSymbol`. */
  function DoshaSymbol(effect: string): char {
    var lowerEffect := ToLower(effect);
    if Contains(lowerEffect, "increase") || Contains(lowerEffect, "aggravate") then UpArrow
    else if Contains(lowerEffect, "decrease") || Contains(lowerEffect, "pacif") then DownArrow
    else '='
  }

  /** `getDoshaColor`. */
  function DoshaColor(effect: string): string {
    var lowerEffect := ToLower(effect);
    if Contains(lowerEffect, "increase") || Contains(lowerEffect, "aggravate") then "text-red-600"
    else if Contains(lowerEffect, "decrease") || Contains(lowerEffect, "pacif") then "text-green-600"
    else "text-gray-600"
  }

  /** The arrow is up for a raise, down for a lowering, `=` otherwise; so a text that
      mentions both shows the up arrow. */
  lemma DoshaSymbolClassifies(effect: string)
    ensures DoshaSymbol(effect) == UpArrow <==> Classify(effect) == Raises
    ensures DoshaSymbol(effect) == DownArrow <==> Classify(effect) == Lowers
    ensures DoshaSymbol(effect) == '=' <==> Classify(effect) == Neutral
  {
  }

  /** The colour follows the same classification: red with the up arrow, green with
      the down arrow, grey with `=`. */
  lemma DoshaColorAgreesWithSymbol(effect: string)
    ensures DoshaColor(effect) == "text-red-600" <==> DoshaSymbol(effect) == UpArrow
    ensures DoshaColor(effect) == "text-green-600" <==> DoshaSymbol(effect) == DownArrow
    ensures DoshaColor(effect) == "text-gray-600" <==> DoshaSymbol(effect) == '='
  {
  }

  /** Both helpers ignore the case of the effect text. */
  lemma {:induction false} DoshaIgnoresCase(effect: string)
    ensures DoshaSymbol(ToLower(effect)) == DoshaSymbol(effect)
    ensures DoshaColor(ToLower(effect)) == DoshaColor(effect)
  {
    ToLowerIdempotent(effect);
  }

  const DefaultRasaColor: string := "bg-gray-400"

  /** The properties every object literal inherits from `Object.prototype`. */
  const InheritedKeys: seq<string> := [
    "constructor", "__proto__", "hasOwnProperty", "isPrototypeOf", "propertyIsEnumerable",
    "toString", "toLocaleString", "valueOf",
    "__defineGetter__", "__defineSetter__", "__lookupGetter__", "__lookupSetter__"]

  /** How an inherited property reads once it is put into the class string: the
      prototype object itself for `__proto__`, a native function for the others
      (`constructor` is the `Object` function). */
  function InheritedText(key: string): string {
    if key == "__proto__" then "[object Object]"
    else if key == "constructor" then "function Object() { [native code] }"
    else "function " + key + "() { [native code] }"
  }

  /** `getRasaColor`: a record keyed by the English and the Sanskrit name of each
      taste, looked up case-sensitively. The lookup also finds what the record
      inherits, which is truthy; any other name gives grey. */
  function RasaColor(rasa: string): string {
    if rasa == "Sweet" || rasa == "Madhura" then "bg-pink-400"
    else if rasa == "Sour" || rasa == "Amla" then "bg-red-400"
    else if rasa == "Salty" || rasa == "Lavana" then "bg-cyan-400"
    else if rasa == "Pungent" || rasa == "Katu" then "bg-orange-400"
    else if rasa == "Bitter" || rasa == "Tikta" then "bg-lime-400"
    else if rasa == "Astringent" || rasa == "Kashaya" then "bg-violet-400"
    else if rasa in InheritedKeys then InheritedText(rasa)
    else DefaultRasaColor
  }

  /** The six tastes, each with its English and Sanskrit name. */
  datatype Rasa = Sweet | Sour | Salty | Pungent | Bitter | Astringent {
    function English(): string {
      match this
      case Sweet => "Sweet"
      case Sour => "Sour"
      case Salty => "Salty"
      case Pungent => "Pungent"
      case Bitter => "Bitter"
      case Astringent => "Astringent"
    }

    function Sanskrit(): string {
      match this
      case Sweet => "Madhura"
      case Sour => "Amla"
      case Salty => "Lavana"
      case Pungent => "Katu"
      case Bitter => "Tikta"
      case Astringent => "Kashaya"
    }

    /** The class the record lists for the taste. */
    function Color(): string {
      match this
      case Sweet => "bg-pink-400"
      case Sour => "bg-red-400"
      case Salty => "bg-cyan-400"
      case Pungent => "bg-orange-400"
      case Bitter => "bg-lime-400"
      case Astringent => "bg-violet-400"
    }
  }

  /** Both names of a taste get the same colour, that colour is not the default, and
      different tastes get different colours. */
  lemma RasaColorByTaste(r: Rasa, q: Rasa)
    ensures RasaColor(r.English()) == RasaColor(r.Sanskrit()) != DefaultRasaColor
    ensures r != q ==> RasaColor(r.English()) != RasaColor(q.English())
  {
    NamesShareColor(r);
    NamesShareColor(q);
  }

  /** The colour both names of a taste look up. */
  lemma NamesShareColor(r: Rasa)
    ensures RasaColor(r.English()) == RasaColor(r.Sanskrit()) == r.Color()
  {
    match r
    case Sweet =>
    case Sour =>
    case Salty =>
    case Pungent =>
    case Bitter =>
    case Astringent =>
  }

  /** A name that is neither name of any taste, such as a lower-cased one, is grey
      unless the record inherits it; an inherited name is neither grey nor a taste's
      colour. */
  lemma RasaColorUnknown(name: string)
    requires forall r: Rasa :: name != r.English() && name != r.Sanskrit()
    ensures RasaColor(name) == DefaultRasaColor <==> name !in InheritedKeys
    ensures forall r: Rasa :: RasaColor(name) != RasaColor(r.English())
  {
    assert name != Sweet.English() && name != Sweet.Sanskrit();
    assert name != Sour.English() && name != Sour.Sanskrit();
    assert name != Salty.English() && name != Salty.Sanskrit();
    assert name != Pungent.English() && name != Pungent.Sanskrit();
    assert name != Bitter.English() && name != Bitter.Sanskrit();
    assert name != Astringent.English() && name != Astringent.Sanskrit();
  }

  /** The tastes shown: the analysis's rasa text, or "Sweet" when it is missing or
      empty, split at commas and each piece trimmed. */
  function RasaList(rasa: Option<string>): (r: seq<string>)
  {
    var text := if rasa.None? || rasa.value == "" then "Sweet" else rasa.value;
    SplitTrim(text, ',')
  }

  /** A present, non-empty rasa text gives one trimmed piece per comma-separated part. */
  lemma RasaListPieces(text: string)
    requires text != ""
    ensures var r := RasaList(Some(text));
            |r| == Occurrences(text, ',') + 1 &&
            forall k :: 0 <= k < |r| ==> r[k] == Trim(Split(text, ',')[k])
  {
  }

  /** With no rasa text the page shows the single taste "Sweet". */
  lemma RasaListDefault()
    ensures RasaList(None) == ["Sweet"]
    ensures RasaList(Some("")) == ["Sweet"]
  {
    var pieces := Split("Sweet", ',');
    assert Occurrences("Sweet", ',') == 0;
    assert |pieces| == 1;
    assert pieces[0] == "Sweet";
    TrimUnchanged("Sweet");
  }
}
