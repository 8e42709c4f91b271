/** The search request body (model/Payload.java): a mutable bean of five
    fields with no validation. */
module PayloadModel {
  import opened Common

  /** The five fields of a payload, as the value that is serialised into a request. */
  datatype PayloadFields = PayloadFields(
    latlng: NString,
    keyword: NString,
    offset: int,
    pageSize: int,
    countryCode: NString)

  class Payload {
    var latlng: NString
    var keyword: NString
    var offset: int
    var pageSize: int
    var countryCode: NString

    /** The current values of all five fields. */
    function Fields(): PayloadFields
      reads this
    {
      PayloadFields(latlng, keyword, offset, pageSize, countryCode)
    }

    /** The default constructor: strings are null, numbers 0. */
    constructor Default()
      ensures Fields() == PayloadFields(None, None, 0, 0, None)
    {
      latlng, keyword, offset, pageSize, countryCode := None, None, 0, 0, None;
    }

    /** Stores each argument in its field; a negative offset or page size is accepted. */
    constructor (latlng: NString, keyword: NString, offset: int, pageSize: int, countryCode: NString)
      ensures Fields() == PayloadFields(latlng, keyword, offset, pageSize, countryCode)
    {
      this.latlng := latlng;
      this.keyword := keyword;
      this.offset := offset;
      this.pageSize := pageSize;
      this.countryCode := countryCode;
    }

    function GetLatlng(): NString reads this { latlng }
    function GetKeyword(): NString reads this { keyword }
    function GetOffset(): int reads this { offset }
    function GetPageSize(): int reads this { pageSize }
    function GetCountryCode(): NString reads this { countryCode }

    method SetLatlng(latlng: NString)
      modifies this
      ensures Fields() == old(Fields()).(latlng := latlng)
    {
      this.latlng := latlng;
    }

    method SetKeyword(keyword: NString)
      modifies this
      ensures Fields() == old(Fields()).(keyword := keyword)
    {
      this.keyword := keyword;
    }

    method SetOffset(offset: int)
      modifies this
      ensures Fields() == old(Fields()).(offset := offset)
    {
      this.offset := offset;
    }

    method SetPageSize(pageSize: int)
      modifies this
      ensures Fields() == old(Fields()).(pageSize := pageSize)
    {
      this.pageSize := pageSize;
    }

    method SetCountryCode(countryCode: NString)
      modifies this
      ensures Fields() == old(Fields()).(countryCode := countryCode)
    {
      this.countryCode := countryCode;
    }
  }
}
