/**
 * Plan records as the queue sees them: an open-ended mapping of fields, of which
 * only `plan_uid` (and, once a plan has run, `exit_status`) mean anything here.
 * Field values stand for their serialized text, so equality of two records is
 * equality of their encodings.
 */
module Plans {

  type Plan = map<string, string>

  const UidKey: string := "plan_uid"
  const ExitStatusKey: string := "exit_status"

  /** Kinds of the exceptions raised by the queue operations. */
  datatype QueueError = ValueError | TypeError | IndexError | RuntimeError

  predicate HasUid(p: Plan) {
    UidKey in p
  }

  function Uid(p: Plan): string
    requires HasUid(p)
  {
    p[UidKey]
  }

  /** `plan["exit_status"] = status`: the UID and every other field are kept. */
  function WithExitStatus(p: Plan, status: string): (r: Plan)
    ensures ExitStatusKey in r && r[ExitStatusKey] == status
    ensures HasUid(r) == HasUid(p) && (HasUid(p) ==> Uid(r) == Uid(p))
    ensures forall k :: k in p && k != ExitStatusKey ==> k in r && r[k] == p[k]
    ensures r.Keys == p.Keys + {ExitStatusKey}
  {
    p[ExitStatusKey := status]
  }

  /** `set_new_plan_uuid`: replaces (or creates) the UID; other fields are kept. */
  function SetNewPlanUid(p: Plan, uid: string): (r: Plan)
    ensures HasUid(r) && Uid(r) == uid
    ensures forall k :: k in p && k != UidKey ==> k in r && r[k] == p[k]
    ensures r.Keys == p.Keys + {UidKey}
  {
    p[UidKey := uid]
  }
}
