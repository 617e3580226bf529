/** The request body for creating an application, and its presence check. */
module CreateApplicationDto {
  import opened Wrappers
  import opened Js

  /** `CreateApplicationDto`, each field as it arrived in the request body. */
  datatype CreateApplicationDto = CreateApplicationDto(
    name: Value, state: Value, region: Value, bundleName: Value, runtimeName: Value)

  /** `validate()`: the first missing (falsy) field among name, state, region and
      bundleName, as `'<field> is required'`; None when all are present. */
  function Validate(dto: CreateApplicationDto): (r: Option<string>)
    ensures r.None? <==> Truthy(dto.name) && Truthy(dto.state) && Truthy(dto.region) && Truthy(dto.bundleName)
  {
    if !Truthy(dto.name) then Some(Required("name"))
    else if !Truthy(dto.state) then Some(Required("state"))
    else if !Truthy(dto.region) then Some(Required("region"))
    else if !Truthy(dto.bundleName) then Some(Required("bundleName"))
    else None
  }

  /** The message naming a missing field. */
  function Required(field: string): string { field + " is required" }

  /** The checked fields in order, with their names. */
  function Checked(dto: CreateApplicationDto): seq<(string, Value)> {
    [("name", dto.name), ("state", dto.state), ("region", dto.region), ("bundleName", dto.bundleName)]
  }

  // ---------------------------------------------------------------------------
  // Properties

  /** Field k is missing, every field before it is present, and `validate()` names it. */
  predicate ReportedAt(dto: CreateApplicationDto, k: nat)
    requires k < 4
  {
    var c := Checked(dto);
    && !Truthy(c[k].1)
    && (forall j :: 0 <= j < k ==> Truthy(c[j].1))
    && Validate(dto) == Some(Required(c[k].0))
  }

  /** A failed check names the first missing field. */
  lemma FirstMissingReported(dto: CreateApplicationDto)
    requires Validate(dto).Some?
    ensures exists k: nat :: k < 4 && ReportedAt(dto, k)
  {
    if !Truthy(dto.name) {
      assert ReportedAt(dto, 0);
    } else if !Truthy(dto.state) {
      assert ReportedAt(dto, 1);
    } else if !Truthy(dto.region) {
      assert ReportedAt(dto, 2);
    } else {
      assert ReportedAt(dto, 3);
    }
  }

  /** `runtimeName` is not checked. */
  lemma RuntimeNameIgnored(dto: CreateApplicationDto, runtimeName: Value)
    ensures Validate(dto.(runtimeName := runtimeName)) == Validate(dto)
  {
  }
}
