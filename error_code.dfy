/**
 * The error codes of the FAST e-invoice command API (ErrorCode.cs): the fixed table
 * of code descriptions, the lookup with its "Unknown error code: N" fallback, and the
 * success test on a bare code.
 */
module ErrorCode {
  import opened Wrappers
  import opened Text

  /** The text that starts the description of a code the table does not list. */
  const UnknownPrefix: string := "Unknown error code: "

  /** The description table, keyed by error code. */
  const Descriptions: map<int, string> := map[
    // Common errors
    7800 := "Tham số đầu vào rỗng",
    7801 := "User không đúng",
    7802 := "Chuỗi checksum không hợp lệ",
    101 := "User không hợp lệ",
    102 := "Mã đơn vị không hợp lệ",
    103 := "User chưa được phân quyền truy cập đơn vị cơ sở tương ứng",
    812 := "Dữ liệu trường vượt quá giới hạn cho phép",
    // Invoice specific errors
    31100 := "Trùng khóa hóa đơn trong dữ liệu",
    31101 := "Tồn tại hóa đơn đã có sửa đổi dữ liệu hoặc đã phát hành trên portal",
    78306 := "Mã số thuế người mua hàng không đúng quy định",
    78307 := "Loại hàng hóa trong chi tiết không đúng quy định portal",
    78308 := "Loại hàng hóa không đúng",
    78317 := "Trường số CMND người mua không đúng quy định",
    78318 := "Mã hình thức thanh toán không hợp lệ",
    78320 := "Mã khách hàng không đúng",
    78321 := "Mã hàng hóa vật tư không đúng",
    78322 := "Tên khách hàng hoặc địa chỉ không được trống",
    78035 := "Hóa đơn có 1 mặt hàng tồn tại nhiều mức thuế suất khác nhau",
    78036 := "Trong đợt gọi api đang truyền cả hóa đơn gốc lẫn hóa đơn điều chỉnh/thay thế",
    78037 := "Hóa đơn không phải là hóa đơn điều chỉnh thì chỉ được phép truyền các trường số là số dương",
    78038 := "Hóa đơn chiết khấu kỳ chi tiết chỉ được truyền các mặt hàng có loại 05/08",
    78039 := "Loại hóa đơn điều chỉnh/thay thế thì thông tin hóa đơn gốc không được bỏ trống",
    78040 := "Nếu có truyền lên mã nt hóa đơn gốc thì mã này phải có trong khai báo danh mục tiền tệ trên portal",
    78041 := "Trường lý do điều chỉnh/thay thế rỗng",
    78042 := "Số biên bản rỗng",
    // Delete invoice errors
    100 := "Các hóa đơn cần xóa thuộc nhiều kỳ khác nhau",
    78901 := "Dữ liệu rỗng",
    78902 := "Hóa đơn không tồn tại",
    78903 := "Trạng thái hóa đơn không hợp lệ, Không được phép xóa"
  ]

  /** Every description in the table is a non-empty text. */
  lemma DescriptionsNonEmpty()
    ensures forall code | code in Descriptions :: |Descriptions[code]| > 0
  {
  }

  /**
   * GetDescription: the table entry for a listed code, otherwise the unknown-code text
   * followed by the code in decimal. Total, and never empty.
   */
  function GetDescription(code: int): (d: string)
    ensures |d| > 0
    ensures code in Descriptions ==> d == Descriptions[code]
    ensures code !in Descriptions ==> |d| > |UnknownPrefix| && d[..|UnknownPrefix|] == UnknownPrefix
  {
    DescriptionsNonEmpty();
    if code in Descriptions then Descriptions[code] else UnknownPrefix + IntToDecimal(code)
  }

  /** IsSuccess on a bare code: zero means no error. */
  predicate IsSuccess(code: int) {
    code == 0
  }

  /** The table lists failure codes only: no listed code is the success code. */
  lemma ListedCodesAreFailures(code: int)
    ensures code in Descriptions ==> !IsSuccess(code)
  {
  }

  /** The success code 0 is not in the table, so its description is the unknown-code text. */
  lemma SuccessCodeDescription()
    ensures 0 !in Descriptions
    ensures GetDescription(0) == "Unknown error code: 0"
  {
  }

  /** Examples: two listed codes and their descriptions, read from the table. */
  lemma ListedDescriptionExamples()
    ensures GetDescription(101) == "User không hợp lệ"
    ensures GetDescription(7802) == "Chuỗi checksum không hợp lệ"
  {
  }

  /** Example: an unlisted code and the fallback description it gets. */
  lemma UnlistedDescriptionExample()
    ensures GetDescription(99999) == "Unknown error code: 99999"
  {
  }

  /** The description of an unlisted code names that code: reading back its digits gives the code. */
  lemma UnknownCodeRoundTrip(code: int)
    requires code !in Descriptions
    ensures ParseDecimal(GetDescription(code)[|UnknownPrefix|..]) == Some(code)
  {
    var d := GetDescription(code);
    assert d[|UnknownPrefix|..] == IntToDecimal(code);
    DecimalRoundTrip(code);
  }

  /** Two unlisted codes never share a description. */
  lemma UnknownCodesDistinguished(a: int, b: int)
    requires a !in Descriptions && b !in Descriptions
    ensures GetDescription(a) == GetDescription(b) ==> a == b
  {
    UnknownCodeRoundTrip(a);
    UnknownCodeRoundTrip(b);
  }
}
