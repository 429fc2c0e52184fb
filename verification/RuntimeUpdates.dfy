/** What a user's update, a report and an archiving make of a thread's preferences, said of what was
    offered, named and reported. */
module RuntimeUpdates {
  import opened Text
  import opened ThreadRuntime

  /** A model is offered if it is listed, or if none is; leaving it blank is always possible. */
  predicate OffersModel(options: Options, text: Bytes) {
    Blank(text) || options.models == [] || exists model <- options.models :: TrimSpace(model) == TrimSpace(text)
  }

  predicate OffersPolicy(options: Options, text: Bytes) {
    Blank(text) || exists policy <- options.policies :: policy != NoPolicy && PolicyOfText(text) == policy
  }

  predicate OffersMode(options: Options, text: Bytes) {
    Blank(text) || exists mode <- options.modes :: mode != NoMode && ModeOfText(text) == mode
  }

  /** Everything the update names is offered. */
  predicate Offers(options: Options, patch: Patch) {
    && (patch.model.Some? ==> OffersModel(options, patch.model.value))
    && (patch.policy.Some? ==> OffersPolicy(options, patch.policy.value))
    && (patch.mode.Some? ==> OffersMode(options, patch.mode.value))
  }

  lemma BlankSpellsNothing(text: Bytes)
    requires Blank(text)
    ensures PolicyOfText(text) == NoPolicy && ModeOfText(text) == NoMode
  {
    assert TrimSpace(text) == [] && Lower([]) == [];
  }

  lemma ModelIsOffered(options: Options, text: Bytes)
    ensures AllowsModel(options, text) <==> OffersModel(options, text)
  {
    if exists model <- options.models :: TrimSpace(model) == TrimSpace(text) {
      var model :| model in options.models && TrimSpace(model) == TrimSpace(text);
      var i :| 0 <= i < |options.models| && options.models[i] == model;
    }
  }

  /** What the user asked for last, or else what the server was last known to hold. */
  function Known(tables: Tables, threadID: Bytes): Prefs {
    if threadID in tables.desired then tables.desired[threadID]
    else if threadID in tables.applied then tables.applied[threadID]
    else NO_PREFS
  }

  /** Each preference as the update names it, or as it was. */
  predicate Follows(prefs: Prefs, known: Prefs, patch: Patch) {
    && prefs.model == TrimSpace(if patch.model.Some? then patch.model.value else known.model)
    && prefs.policy == (if patch.policy.Some? then PolicyOfText(patch.policy.value) else known.policy)
    && prefs.mode == (if patch.mode.Some? then ModeOfText(patch.mode.value) else known.mode)
  }

  lemma AllowedIffOffered(options: Options, patch: Patch)
    ensures Allows(options, patch) <==> Offers(options, patch)
  {
    if patch.model.Some? {
      ModelIsOffered(options, patch.model.value);
    }
    if patch.policy.Some? && Blank(patch.policy.value) {
      BlankSpellsNothing(patch.policy.value);
    }
    if patch.mode.Some? && Blank(patch.mode.value) {
      BlankSpellsNothing(patch.mode.value);
    }
  }

  lemma PatchFollows(known: Prefs, patch: Patch)
    ensures Follows(Normalized(Patched(Normalized(known), patch)), known, patch)
  {
    NormalizedIdempotent(known);
    NormalizedIdempotent(Patched(Normalized(known), patch));
    TrimSpaceIdempotent(known.model);
    if patch.model.Some? {
      TrimSpaceIdempotent(patch.model.value);
    }
  }

  /** An update is taken exactly if everything it names is offered; it then changes what is desired of its
      thread as it says, and nothing else. One that is refused changes nothing. */
  lemma UpdateIsTakenIffOffered(tables: Tables, threadID: Bytes, patch: Patch, options: Options)
    requires threadID != []
    ensures Allows(options, patch) <==> Offers(options, patch)
    ensures var next := tables.Update(threadID, patch, options);
      if !Offers(options, patch) then next == tables
      else
        && threadID in next.desired && Follows(next.desired[threadID], Known(tables, threadID), patch)
        && next == Tables(tables.desired[threadID := next.desired[threadID]], tables.applied)
  {
    AllowedIffOffered(options, patch);
    PatchFollows(Known(tables, threadID), patch);
  }

  /** Every spelling of an offered value that the client itself would use is taken, whatever its padding. */
  lemma OwnSpellingsAreOffered(options: Options, text: Bytes, policy: Policy, mode: Mode)
    ensures TrimSpace(text) == PolicySpelling(policy) && policy in options.policies ==> OffersPolicy(options, text)
    ensures TrimSpace(text) == ModeSpelling(mode) && mode in options.modes ==> OffersMode(options, text)
  {
    SpellingsAreNormal(policy, mode);
    TrimSpaceIdempotent(text);
  }

  /** A report that tells anything is what is desired and what is believed, so a start sends nothing; one
      that tells nothing changes nothing. */
  lemma ReportIsBelieved(tables: Tables, threadID: Bytes, reported: Prefs)
    requires threadID != [] && Trimmed(reported.model)
    ensures var next := tables.Seed(threadID, reported);
      if reported == NO_PREFS then next == tables
      else
        && next == Tables(tables.desired[threadID := reported], tables.applied[threadID := reported])
        && next.Override(threadID) == NO_OVERRIDE
  {
    NormalizedIdempotent(reported);
  }

  /** Of an archived thread nothing is left, and of the others everything. */
  lemma ArchivedIsForgotten(tables: Tables, threadID: Bytes)
    requires !Blank(threadID)
    ensures var next := tables.Forget(threadID);
      && threadID !in next.desired && threadID !in next.applied && next.Override(threadID) == NO_OVERRIDE
      && forall other | other != threadID ::
           Same(tables.desired, next.desired, other) && Same(tables.applied, next.applied, other)
  {
  }
}
