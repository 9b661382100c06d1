/** From the admin API to the catalogue: what switching a model off, or on
    again, does to what the resolver offers. */
module SwitchEffects {
  import opened Options
  import opened Json
  import opened ConfigOverlay
  import opened ConfigEdits
  import opened ConfigManager
  import opened Text
  import R = ModelRegistry

  /** The switches of a provider as the resolver reads them: an id counts as
      disabled when its entry is truthy. */
  function TableOf(config: Section, p: Key): map<string, bool> {
    var names := ReadNames(config, Disabled, p);
    map k | k in names && k.Name? :: k.s := !Falsy(names[k])
  }

  lemma TableAt(config: Section, p: Key, s: string)
    ensures var v := Lookup(ReadNames(config, Disabled, p), Name(s));
      && (s in TableOf(config, p) <==> v.Some?)
      && (v.Some? ==> TableOf(config, p)[s] == !Falsy(v.value))
  {
    var names := ReadNames(config, Disabled, p);
    if s in TableOf(config, p) { assert Name(s) in names; }
  }

  /** A model that is switched off is disabled from then on: it is not visible,
      and no model is served by it. */
  lemma OffHides(before: Section, after: Section, p: Key, model: string, cat: R.Catalogue, c: string)
    requires Strip(model) != ""
    requires OnlySets(before, after, Disabled, p, Name(Strip(model)), Some(Bool(true)))
    ensures R.Disabled(TableOf(after, p), model)
    ensures !R.Visible(TableOf(after, p), cat, model) && model !in R.Offers(TableOf(after, p), cat, c)
  {
    TableAt(after, p, Strip(model));
    R.OffersExactly(TableOf(after, p), cat, c);
  }

  /** A model that is switched on is disabled only if its lower-case spelling
      still carries a switch of its own. */
  lemma OnShows(before: Section, after: Section, p: Key, model: string)
    requires OnlySets(before, after, Disabled, p, Name(Strip(model)), None)
    ensures R.Disabled(TableOf(after, p), model) <==>
      Strip(model) != "" && Lower(Strip(model)) != Strip(model)
      && Lookup(ReadNames(before, Disabled, p), Name(Lower(Strip(model)))).Some?
      && !Falsy(Lookup(ReadNames(before, Disabled, p), Name(Lower(Strip(model)))).value)
  {
    TableAt(after, p, Strip(model));
    TableAt(after, p, Lower(Strip(model)));
  }
}
