// The Illumina Connected Analytics billing function: the mapping of its
// usage rows onto the aggregate billing fields, and the guards in front of
// its two API calls.
module BillingIca {
  import opened Wrappers
  import opened Strings

  /** A row of ICA usage data: column name to value. */
  type IcaRow = map<string, string>

  const Topic := "ica-illumina"
  const NoApiKeyMessage := "No api key provided for ICE API"
  const NoTokenMessage := "No token provided for ICE API"

  datatype IcaError = ValueError(message: string) | KeyError(key: string)

  datatype IcaService = IcaService(id: Option<string>, description: string)
  datatype IcaSku = IcaSku(id: Option<string>, description: Option<string>)
  datatype IcaProject = IcaProject(id: Option<string>, name: Option<string>)

  function Get(row: IcaRow, column: string): (r: Option<string>)
    ensures r.Some? <==> column in row
    ensures r.Some? ==> r.value == row[column]
  {
    if column in row then Some(row[column]) else None
  }

  // ---------------------------------------------------------------------
  // Field mappers

  /** `get_topic`: every ICA row belongs to the one topic. */
  function GetTopic(row: IcaRow): (r: string)
    ensures r == Topic
  {
    Topic
  }

  /** `get_service`: the sku is the service id; storage rows are Cloud Storage, all others compute. */
  function GetService(row: IcaRow): (r: IcaService)
    ensures r.id == Get(row, "sku")
    ensures r.description == "Cloud Storage" <==> Get(row, "category") == Some("Storage")
    ensures r.description != "Cloud Storage" ==> r.description == "Compute Engine"
  {
    IcaService(Get(row, "sku"), if Get(row, "category") == Some("Storage") then "Cloud Storage" else "Compute Engine")
  }

  function GetSku(row: IcaRow): (r: IcaSku)
    ensures r.id == Get(row, "sku") && r.description == Get(row, "product")
  {
    IcaSku(Get(row, "sku"), Get(row, "product"))
  }

  /** `get_project`: the sub-tenant is both the id and the name. */
  function GetProject(row: IcaRow): (r: IcaProject)
    ensures r.id == r.name == Get(row, "sub_tenant_name")
  {
    IcaProject(Get(row, "sub_tenant_name"), Get(row, "sub_tenant_name"))
  }

  /** `get_invoice`: the invoice month is the row's month column. */
  function GetInvoice(row: IcaRow): (r: Option<string>)
    ensures r == Get(row, "month")
  {
    Get(row, "month")
  }

  /** The row id added to downloaded data. */
  function RowId(usageId: string): (r: string)
    ensures StartsWith(r, "ica-") && r[4..] == usageId
  {
    "ica-" + usageId
  }

  // ---------------------------------------------------------------------
  // Labels from the metadata column

  function Metadata(row: IcaRow): string
  {
    if "metadata" in row then row["metadata"] else ""
  }

  /** `pair.split(':', 1)`: the text around the first colon, if there is one. */
  function SplitAtColon(pair: string): (r: Option<(string, string)>)
    ensures r.Some? <==> ':' in pair
    ensures r.Some? ==> pair == r.value.0 + ":" + r.value.1 && ':' !in r.value.0
  {
    Partition(pair, ':')
  }

  /** The label a metadata pair contributes: key and value stripped. */
  function PairLabel(pair: string): Option<(string, string)>
  {
    match SplitAtColon(pair)
    case None => None
    case Some((k, v)) => Some((Strip(k), Strip(v)))
  }

  /** The labels of a sequence of pairs, each later pair overwriting earlier ones. */
  function LabelsOf(pairs: seq<string>): map<string, string>
    decreases |pairs|
  {
    if |pairs| == 0 then map[]
    else
      var before := LabelsOf(pairs[..|pairs| - 1]);
      var added := PairLabel(pairs[|pairs| - 1]);
      if added.Some? then before[added.value.0 := added.value.1] else before
  }

  /** The pair contributes a label under key `k`. */
  predicate SetsKey(pair: string, k: string)
  {
    PairLabel(pair).Some? && PairLabel(pair).value.0 == k
  }

  /** Index `i` is the last pair that sets key `k`. */
  predicate LastSetting(pairs: seq<string>, k: string, i: int)
  {
    0 <= i < |pairs| && SetsKey(pairs[i], k) && forall j :: i < j < |pairs| ==> !SetsKey(pairs[j], k)
  }

  /** Every key of the labels comes from a pair that sets it. */
  lemma {:induction false} LabelsOfKeysFromPairs(pairs: seq<string>, k: string)
    requires k in LabelsOf(pairs)
    ensures exists i :: 0 <= i < |pairs| && SetsKey(pairs[i], k)
    decreases |pairs|
  {
    var n := |pairs| - 1;
    var init := pairs[..n];
    if !SetsKey(pairs[n], k) {
      assert k in LabelsOf(init);
      LabelsOfKeysFromPairs(init, k);
      var i :| 0 <= i < |init| && SetsKey(init[i], k);
      assert pairs[i] == init[i];
    }
  }

  /** A pair that sets a key puts it among the labels. */
  lemma {:induction false} LabelsOfKeysOfPair(pairs: seq<string>, k: string, i: int)
    requires 0 <= i < |pairs| && SetsKey(pairs[i], k)
    ensures k in LabelsOf(pairs)
    decreases |pairs|
  {
    var n := |pairs| - 1;
    if i < n {
      var init := pairs[..n];
      assert init[i] == pairs[i];
      LabelsOfKeysOfPair(init, k, i);
    }
  }

  /** The keys of the labels are exactly the keys of the pairs that have a colon. */
  lemma LabelsOfKeys(pairs: seq<string>, k: string)
    ensures k in LabelsOf(pairs) <==> exists i :: 0 <= i < |pairs| && SetsKey(pairs[i], k)
  {
    if k in LabelsOf(pairs) {
      LabelsOfKeysFromPairs(pairs, k);
    }
    if exists i :: 0 <= i < |pairs| && SetsKey(pairs[i], k) {
      var i :| 0 <= i < |pairs| && SetsKey(pairs[i], k);
      LabelsOfKeysOfPair(pairs, k, i);
    }
  }

  /** A key's label is the value of the last pair that sets it. */
  lemma {:induction false} LabelsOfLastWins(pairs: seq<string>, k: string, i: int)
    requires LastSetting(pairs, k, i)
    ensures k in LabelsOf(pairs) && LabelsOf(pairs)[k] == PairLabel(pairs[i]).value.1
    decreases |pairs|
  {
    if i < |pairs| - 1 {
      var init := pairs[..|pairs| - 1];
      assert init[i] == pairs[i];
      forall j | i < j < |init| ensures !SetsKey(init[j], k) {
        assert init[j] == pairs[j];
      }
      LabelsOfLastWins(init, k, i);
      assert !SetsKey(pairs[|pairs| - 1], k);
    }
  }

  /**
   * `get_labels`: None when the metadata column is absent or empty, else the
   * labels of its '|'-separated pairs.
   */
  method GetLabels(row: IcaRow) returns (r: Option<map<string, string>>)
    ensures r.None? <==> Metadata(row) == ""
    ensures r.Some? ==> r.value == LabelsOf(Split(Metadata(row), "|"))
  {
    var metadata := Metadata(row);
    if metadata == "" {
      return None;
    }
    var pairs := Split(metadata, "|");
    var labels: map<string, string> := map[];
    var i := 0;
    while i < |pairs|
      invariant 0 <= i <= |pairs|
      invariant labels == LabelsOf(pairs[..i])
    {
      assert pairs[..i + 1][..i] == pairs[..i];
      var split := SplitAtColon(pairs[i]);
      if split.Some? {
        var (key, value) := split.value;
        labels := labels[Strip(key) := Strip(value)];
      }
      i := i + 1;
    }
    assert pairs[..i] == pairs;
    r := Some(labels);
  }

  /** The pairs are the metadata cut at every '|', and each of them is free of '|'. */
  lemma MetadataPairs(row: IcaRow)
    ensures Join(Split(Metadata(row), "|"), "|") == Metadata(row)
    ensures forall p :: p in Split(Metadata(row), "|") ==> '|' !in p
  {
    SplitJoinInverse(Metadata(row), "|");
    SplitCharPieces(Metadata(row), '|');
  }

  // ---------------------------------------------------------------------
  // API guards

  /**
   * `get_jwt_token`: ValueError before any request when the key is empty;
   * else whatever token the request returns.
   */
  function GetJwtToken(xkey: Option<string>, domain: string, post: (string, string) -> Option<string>)
    : (r: Result<Option<string>, IcaError>)
    ensures r.Err? <==> xkey.None? || xkey.value == ""
    ensures r.Err? ==> r.error == ValueError(NoApiKeyMessage)
    ensures r.Ok? ==> r.value == post(xkey.value, domain)
  {
    if xkey.None? || xkey.value == "" then Err(ValueError(NoApiKeyMessage)) else Ok(post(xkey.value, domain))
  }

  /** The id column added to every downloaded row; KeyError without a usage id. */
  function AddIds(rows: seq<IcaRow>): (r: Result<seq<IcaRow>, IcaError>)
    ensures r.Err? <==> exists i :: 0 <= i < |rows| && "usage_id" !in rows[i]
    ensures r.Ok? ==> |r.value| == |rows| &&
                      forall i :: 0 <= i < |rows| ==> r.value[i] == rows[i]["id" := RowId(rows[i]["usage_id"])]
    decreases |rows|
  {
    if |rows| == 0 then Ok([])
    else if "usage_id" !in rows[0] then Err(KeyError("usage_id"))
    else
      match AddIds(rows[1..])
      case Err(e) => Err(e)
      case Ok(rest) => Ok([rows[0]["id" := RowId(rows[0]["usage_id"])]] + rest)
  }

  /**
   * `get_csv_data`: ValueError before any request when the token is empty;
   * else the downloaded rows, each with its 'ica-' id.
   */
  function GetCsvData(token: Option<string>, start: string, end: string,
                      download: (string, string, string) -> seq<IcaRow>)
    : (r: Result<seq<IcaRow>, IcaError>)
    ensures (token.None? || token.value == "") ==> r == Err(ValueError(NoTokenMessage))
    ensures token.Some? && token.value != "" ==> r == AddIds(download(token.value, start, end))
  {
    if token.None? || token.value == "" then Err(ValueError(NoTokenMessage))
    else AddIds(download(token.value, start, end))
  }
}
