/**
 * The part of `AppController` that drives the engine: `start_migration`
 * validates the form, saves or deletes the stored credentials, builds a fresh
 * `TelegramLogic` and hands the parsed request to the worker; `stop_migration`
 * stops the engine only while it runs.
 */
module Controller {
  import opened Wrappers
  import opened Numerals
  import opened Validation
  import Engine
  import Migration
  import Transport

  /** What `_save_credentials` writes: the raw entry texts (encryption of the
      API fields is not modelled). */
  datatype Credentials = Credentials(apiId: string, apiHash: string, sourceIds: string, targetId: string)

  /** Why the start button did not launch a run. */
  datatype LaunchError = Invalid(error: ValidationError) | ApiIdNotInteger

  class AppController {
    /** The engine of the last launch, if any. */
    var logic: Engine.TelegramLogic?
    /** The credentials file: `None` when there is none. */
    var credentials: Option<Credentials>
    /** The request handed to the worker thread by the last launch. */
    var launched: Option<Request>

    ghost predicate Valid()
      reads this, logic
    {
      logic != null ==> logic.Valid()
    }

    constructor (stored: Option<Credentials>)
      ensures logic == null && credentials == stored && launched == None
      ensures Valid()
    {
      logic := null;
      credentials := stored;
      launched := None;
    }

    /** `start_migration`. A form that fails validation changes nothing.
        Otherwise the credentials are saved (or deleted when saving is off)
        before the engine is built; building it converts the raw API id (not
        its `strip()`) with `int()`, which the validator never checked, so a
        non-integer id fails only after the credentials were written. On
        success a fresh engine with the stored ledger and the chosen start
        date gets the request. */
    method StartMigration(form: Form, saveCredentials: bool, progress: Engine.ProgressFile)
      returns (outcome: Outcome<LaunchError>)
      requires Valid()
      modifies this
      ensures Validate(form).Err? ==>
        && outcome == Fail(Invalid(Validate(form).error))
        && logic == old(logic) && credentials == old(credentials) && launched == old(launched)
      ensures Validate(form).Ok? ==>
        credentials == (if saveCredentials
                        then Some(Credentials(form.apiId, form.apiHash, form.sourceIds, form.targetId))
                        else None)
      ensures Validate(form).Ok? && IntOf(form.apiId).None? ==>
        outcome == Fail(ApiIdNotInteger) && logic == old(logic) && launched == old(launched)
      ensures outcome == Pass <==> Validate(form).Ok? && IntOf(form.apiId).Some?
      ensures outcome == Pass ==>
        && logic != null && fresh(logic) && logic.Valid()
        && Some(logic.apiId) == IntOf(form.apiId) && logic.apiHash == form.apiHash
        && logic.startDate == Validate(form).value.startDate
        && logic.progress == Engine.LoadProgress(progress) && !logic.isRunning
        && launched == Some(Validate(form).value)
      ensures Valid()
    {
      var request := Validate(form);
      if request.Err? {
        return Fail(Invalid(request.error));
      }
      outcome := Launch(form, request.value, saveCredentials, progress);
    }

    /** The tail of `start_migration`, once the form is valid: save the
        credentials, build the engine (where `int()` of the raw API id may
        raise), and hand the request to the worker. */
    method Launch(form: Form, request: Request, saveCredentials: bool, progress: Engine.ProgressFile)
      returns (outcome: Outcome<LaunchError>)
      requires Valid()
      modifies this
      ensures credentials == (if saveCredentials
                              then Some(Credentials(form.apiId, form.apiHash, form.sourceIds, form.targetId))
                              else None)
      ensures outcome == Pass <==> IntOf(form.apiId).Some?
      ensures outcome.Fail? ==> outcome.error == ApiIdNotInteger && logic == old(logic) && launched == old(launched)
      ensures outcome == Pass ==>
        && logic != null && fresh(logic) && logic.Valid()
        && Some(logic.apiId) == IntOf(form.apiId) && logic.apiHash == form.apiHash
        && logic.startDate == request.startDate
        && logic.progress == Engine.LoadProgress(progress) && !logic.isRunning
        && launched == Some(request)
      ensures Valid()
    {
      SaveCredentials(form, saveCredentials);
      var apiId := IntOf(form.apiId);
      if apiId.None? {
        return Fail(ApiIdNotInteger);
      }
      logic := new Engine.TelegramLogic(apiId.value, form.apiHash, request.startDate, progress);
      launched := Some(request);
      outcome := Pass;
    }

    /** `_save_credentials`: write the entries when saving is on, otherwise
        delete the file. */
    method SaveCredentials(form: Form, save: bool)
      requires Valid()
      modifies this
      ensures credentials == if save then Some(Credentials(form.apiId, form.apiHash, form.sourceIds, form.targetId)) else None
      ensures logic == old(logic) && launched == old(launched)
      ensures Valid()
    {
      if save {
        credentials := Some(Credentials(form.apiId, form.apiHash, form.sourceIds, form.targetId));
      } else {
        credentials := None;
      }
    }

    /** `stop_migration`: stops the engine only when one exists and is
        running; otherwise nothing changes (a warning is logged). */
    method StopMigration() returns (stopped: bool)
      requires Valid()
      modifies logic
      ensures stopped <==> old(logic != null && logic.isRunning)
      ensures logic != null ==> !logic.isRunning
      ensures logic != null ==>
        && logic.progress == old(logic.progress) && logic.polls == old(logic.polls)
        && logic.trace == old(logic.trace) && logic.file == old(logic.file)
      ensures Valid()
    {
      if logic != null && logic.isRunning {
        logic.Stop();
        stopped := true;
      } else {
        stopped := false;
      }
    }
  }

  /** A source field of commas and whitespace (with at least one comma)
      passes every check of the form and reaches the engine as an empty
      list, which the engine then refuses before setting its flag. */
  lemma SeparatorsOnlyReachEngine(form: Form, st: Migration.State, env: Migration.Env)
    requires !Blank(form.apiId) && !Blank(form.apiHash)
    requires forall i :: 0 <= i < |form.sourceIds| ==> form.sourceIds[i] == ',' || IsSpace(form.sourceIds[i])
    requires ',' in form.sourceIds
    requires ParseInt(Strip(form.targetId)).Some?
    ensures Validate(form).Ok? && Validate(form).value.sources == []
    ensures var request := Validate(form).value;
            Migration.Start(st, request.sources, request.target, request.startDate, env) == (st, Fail(Migration.NoSources))
  {
    SeparatorsOnlyGiveNoSources(form.sourceIds);
    var r := Validate(form);
    assert r.Ok?;
    assert r.value.sources == [];
  }
}
