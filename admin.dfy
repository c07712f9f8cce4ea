/**
 * `update_config` (src/interface/handlers/admin.rs): replacing the AI configuration wipes the
 * knowledge graph, so it is refused unless the payload sets `force_reset`; when it is set the
 * database is reset, the vector indexes are rebuilt for the new embedding dimension, and only
 * then is the new configuration installed, each step only after the previous one succeeded.
 */
module Admin {
  import opened Wrappers
  import opened Errors
  import opened Models
  import opened Ports
  import RigClient

  /** `AdminConfigPayload` (src/application/dtos.rs). */
  datatype AdminConfigPayload = AdminConfigPayload(config: AIConfig, forceReset: bool)

  const ResetMessage := "System reset and reconfigured successfully"

  /** The repository calls made, whether the configuration was installed, and the answer. */
  datatype ResetOutcome = ResetOutcome(trace: seq<Effect>, configured: bool, result: Result<string, AppError>)

  function ResetTurn(fault: (nat, Effect) -> Option<AppError>, trace: seq<Effect>, payload: AdminConfigPayload): ResetOutcome {
    if !payload.forceReset then ResetOutcome(trace, false, Err(SafetyGuardError))
    else
      var t1 := trace + [ResetDatabase];
      match fault(|trace|, ResetDatabase)
      case Some(e) => ResetOutcome(t1, false, Err(e))
      case None =>
        var t2 := t1 + [CreateIndexes(payload.config.embeddingDim)];
        match fault(|t1|, CreateIndexes(payload.config.embeddingDim))
        case Some(e) => ResetOutcome(t2, false, Err(e))
        case None => ResetOutcome(t2, true, Ok(ResetMessage))
  }

  /** `update_config`, with the repository and the AI service it holds. */
  method UpdateConfig(repo: Backend, ai: RigClient.RigAIService, payload: AdminConfigPayload) returns (r: Result<string, AppError>)
    modifies repo, ai
    ensures repo.trace == ResetTurn(repo.fault, old(repo.trace), payload).trace
    ensures r == ResetTurn(repo.fault, old(repo.trace), payload).result
    ensures ai.config == if ResetTurn(repo.fault, old(repo.trace), payload).configured then payload.config else old(ai.config)
    ensures repo.users == old(repo.users) && ai.sent == old(ai.sent)
  {
    if payload.forceReset {
      var reset := repo.Command(ResetDatabase);
      if reset.Err? {
        return Err(reset.error);
      }
      var indexes := repo.Command(CreateIndexes(payload.config.embeddingDim));
      if indexes.Err? {
        return Err(indexes.error);
      }
      // The rig client's `update_config` always succeeds, so its `?` never returns early.
      var _ := ai.UpdateConfig(payload.config);
      return Ok(ResetMessage);
    }
    r := Err(SafetyGuardError);
  }

  /** The guard and the order of the steps: without the force flag nothing is touched and the
      safety-guard error is returned; with it the reset comes first, index creation happens only
      after a successful reset, and the configuration is installed, with the fixed message,
      exactly when both succeeded. */
  lemma ResetSequence(fault: (nat, Effect) -> Option<AppError>, trace: seq<Effect>, payload: AdminConfigPayload)
    ensures var o := ResetTurn(fault, trace, payload);
      !payload.forceReset ==> o.trace == trace && !o.configured && o.result == Err(SafetyGuardError)
    ensures var o := ResetTurn(fault, trace, payload);
      payload.forceReset ==> |o.trace| > |trace| && o.trace[..|trace| + 1] == trace + [ResetDatabase]
    ensures var o := ResetTurn(fault, trace, payload);
      |o.trace| == |trace| + 2 <==> payload.forceReset && fault(|trace|, ResetDatabase).None?
    ensures var o := ResetTurn(fault, trace, payload);
      |o.trace| == |trace| + 2 ==> o.trace == trace + [ResetDatabase, CreateIndexes(payload.config.embeddingDim)]
    ensures var o := ResetTurn(fault, trace, payload);
      o.configured <==> o.result.Ok?
    ensures var o := ResetTurn(fault, trace, payload);
      o.result.Ok? <==>
        (payload.forceReset && fault(|trace|, ResetDatabase).None? &&
         fault(|trace| + 1, CreateIndexes(payload.config.embeddingDim)).None?)
    ensures var o := ResetTurn(fault, trace, payload);
      o.result.Ok? ==> o.result.value == ResetMessage
  {
    var o := ResetTurn(fault, trace, payload);
    if payload.forceReset {
      assert (trace + [ResetDatabase])[..|trace| + 1] == trace + [ResetDatabase];
      if fault(|trace|, ResetDatabase).None? {
        assert o.trace == trace + [ResetDatabase] + [CreateIndexes(payload.config.embeddingDim)];
        assert o.trace[..|trace| + 1] == trace + [ResetDatabase];
      }
    }
  }

  /** A failed step leaves the configuration as it was: only a fully successful reset installs
      the new one. */
  lemma FailureKeepsConfig(fault: (nat, Effect) -> Option<AppError>, trace: seq<Effect>, payload: AdminConfigPayload)
    requires ResetTurn(fault, trace, payload).result.Err?
    ensures !ResetTurn(fault, trace, payload).configured
    ensures ResetTurn(fault, trace, payload).result.error == SafetyGuardError ||
            (payload.forceReset && fault(|trace|, ResetDatabase) == Some(ResetTurn(fault, trace, payload).result.error)) ||
            (payload.forceReset && fault(|trace|, ResetDatabase).None? &&
             fault(|trace| + 1, CreateIndexes(payload.config.embeddingDim)) == Some(ResetTurn(fault, trace, payload).result.error))
  {
    ResetSequence(fault, trace, payload);
  }
}
