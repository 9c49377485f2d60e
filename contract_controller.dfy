/**
 * The contract type and frequency guards of `createContract` and `updateContract` in
 * backend/controllers/contractController.js, and the statement parameters and replies around
 * the database call.
 */
module ContractController {
  import opened Wrappers
  import opened JsValues
  import opened Helpers

  /** The two checks, in order: the type must be one of the two contract classes, then the
      frequency must be the class's visits per week, compared with `!==` (so the string `"3"`
      is not 3). */
  function ContractGuard(body: map<string, JsValue>): (r: Option<string>)
    ensures r.None? <==>
      (Get(body, "contract_type") == Str("COMEAU") && Get(body, "frequency_per_week") == Int(3))
      || (Get(body, "contract_type") == Str("COMDET") && Get(body, "frequency_per_week") == Int(1))
    ensures Get(body, "contract_type") !in {Str("COMEAU"), Str("COMDET")} ==>
      r == Some("Invalid contract type. Must be COMEAU or COMDET")
    ensures Get(body, "contract_type") == Str("COMEAU") && Get(body, "frequency_per_week") != Int(3) ==>
      r == Some("COMEAU contracts must have frequency of 3 per week")
    ensures Get(body, "contract_type") == Str("COMDET") && Get(body, "frequency_per_week") != Int(1) ==>
      r == Some("COMDET contracts must have frequency of 1 per week")
  {
    var contractType := Get(body, "contract_type");
    var frequency := Get(body, "frequency_per_week");
    if contractType != Str("COMEAU") && contractType != Str("COMDET") then
      Some("Invalid contract type. Must be COMEAU or COMDET")
    else if contractType == Str("COMEAU") && frequency != Int(3) then
      Some("COMEAU contracts must have frequency of 3 per week")
    else if contractType == Str("COMDET") && frequency != Int(1) then
      Some("COMDET contracts must have frequency of 1 per week")
    else None
  }

  /** `active_status !== undefined ? active_status : true`: `null` and `false` are kept. */
  function ActiveStatus(body: map<string, JsValue>): (v: JsValue)
    ensures Get(body, "active_status").Undefined? ==> v == Bool(true)
    ensures !Get(body, "active_status").Undefined? ==> v == Get(body, "active_status")
  {
    var v := Get(body, "active_status");
    if v.Undefined? then Bool(true) else v
  }

  /** Either the 400 reply of a failed guard, or the parameters of the SQL statement. */
  datatype Request = Refused(reply: Reply<()>) | Statement(params: seq<JsValue>)

  /** `createContract`: the INSERT takes the store, type, frequency and dates as given. */
  function CreateContractRequest(body: map<string, JsValue>): (r: Request)
    ensures r.Refused? <==> ContractGuard(body).Some?
    ensures r.Refused? ==> r.reply == Fail(400, ContractGuard(body).value)
    ensures r.Statement? ==>
      && |r.params| == 5 && r.params[0] == Get(body, "store_id")
      && r.params[1] == Get(body, "contract_type") && r.params[2] == Get(body, "frequency_per_week")
      && r.params[3] == Get(body, "start_date") && r.params[4] == Get(body, "end_date")
  {
    match ContractGuard(body)
    case Some(error) => Refused(Fail(400, error))
    case None =>
      Statement([Get(body, "store_id"), Get(body, "contract_type"), Get(body, "frequency_per_week"),
                 Get(body, "start_date"), Get(body, "end_date")])
  }

  /** `updateContract`: the same guard; the UPDATE also sets the active status and is keyed by
      the path's `id`. */
  function UpdateContractRequest(body: map<string, JsValue>, contractId: string): (r: Request)
    ensures r.Refused? <==> ContractGuard(body).Some?
    ensures r.Refused? ==> r.reply == Fail(400, ContractGuard(body).value)
    ensures r.Statement? ==>
      && |r.params| == 7 && r.params[0] == Get(body, "store_id")
      && r.params[1] == Get(body, "contract_type") && r.params[2] == Get(body, "frequency_per_week")
      && r.params[3] == Get(body, "start_date") && r.params[4] == Get(body, "end_date")
      && r.params[5] == ActiveStatus(body) && r.params[6] == Str(contractId)
  {
    match ContractGuard(body)
    case Some(error) => Refused(Fail(400, error))
    case None =>
      Statement([Get(body, "store_id"), Get(body, "contract_type"), Get(body, "frequency_per_week"),
                 Get(body, "start_date"), Get(body, "end_date"), ActiveStatus(body), Str(contractId)])
  }

  /** The data of the success replies: `{ id, store_id, contract_type, frequency_per_week }`. */
  datatype ContractData = ContractData(id: JsValue, storeId: JsValue, contractType: JsValue, frequency: JsValue)

  /** What the UPDATE reports: an error, or the number of rows it matched. */
  datatype UpdateResult = UpdateFailed | Updated(affectedRows: nat)

  /** The reply of `createContract`; `insertId` is the INSERT's result, `None` when it fails. */
  function CreateContractReply(body: map<string, JsValue>, insertId: Option<int>): (r: Reply<ContractData>)
    ensures ContractGuard(body).Some? ==> r == Fail(400, ContractGuard(body).value)
    ensures ContractGuard(body).None? && insertId.None? ==> r == Fail(500, "Failed to add contract")
    ensures r.Success? <==> ContractGuard(body).None? && insertId.Some?
    ensures r.Success? ==>
      && r.status == 201 && r.message == Some("Contract added successfully")
      && r.data == ContractData(Int(insertId.value), Get(body, "store_id"), Get(body, "contract_type"),
                                Get(body, "frequency_per_week"))
  {
    match CreateContractRequest(body)
    case Refused(reply) => Fail(400, ContractGuard(body).value)
    case Statement(_) =>
      match insertId
      case None => Fail(500, "Failed to add contract")
      case Some(id) =>
        Success(201, ContractData(Int(id), Get(body, "store_id"), Get(body, "contract_type"), Get(body, "frequency_per_week")),
                Some("Contract added successfully"))
  }

  /** The reply of `updateContract`: an UPDATE that matches no row is a 404. */
  function UpdateContractReply(body: map<string, JsValue>, contractId: string, result: UpdateResult): (r: Reply<ContractData>)
    ensures ContractGuard(body).Some? ==> r == Fail(400, ContractGuard(body).value)
    ensures ContractGuard(body).None? && result.UpdateFailed? ==> r == Fail(500, "Failed to update contract")
    ensures ContractGuard(body).None? && result == Updated(0) ==> r == Fail(404, "Contract not found")
    ensures r.Success? <==> ContractGuard(body).None? && result.Updated? && result.affectedRows > 0
    ensures r.Success? ==>
      && r.status == 200 && r.message == Some("Contract updated successfully")
      && r.data == ContractData(Str(contractId), Get(body, "store_id"), Get(body, "contract_type"),
                                Get(body, "frequency_per_week"))
  {
    match UpdateContractRequest(body, contractId)
    case Refused(reply) => Fail(400, ContractGuard(body).value)
    case Statement(_) =>
      match result
      case UpdateFailed => Fail(500, "Failed to update contract")
      case Updated(n) =>
        if n == 0 then Fail(404, "Contract not found")
        else Success(200, ContractData(Str(contractId), Get(body, "store_id"), Get(body, "contract_type"),
                                       Get(body, "frequency_per_week")), Some("Contract updated successfully"))
  }

  /** Creating and updating apply the same guard, so a body one refuses the other refuses with
      the same message. */
  lemma SameGuard(body: map<string, JsValue>, contractId: string)
    ensures CreateContractRequest(body).Refused? <==> UpdateContractRequest(body, contractId).Refused?
    ensures CreateContractRequest(body).Refused? ==>
      CreateContractRequest(body).reply == UpdateContractRequest(body, contractId).reply
  {
  }

  /** The guard accepts exactly the two pairs the planner's contract classes use: three weekly
      visits for a COMEAU contract and one for a COMDET contract. */
  lemma AcceptedPairs(contractType: string, frequency: int, body: map<string, JsValue>)
    requires Get(body, "contract_type") == Str(contractType) && Get(body, "frequency_per_week") == Int(frequency)
    ensures ContractGuard(body).None? <==> (contractType, frequency) in {("COMEAU", 3), ("COMDET", 1)}
  {
  }
}
