/** The seller dashboard (pages/Admin.tsx): a list of product-entry rows
    submitted together to the bulk-upload endpoint. */
module AdminPage {
  import opened Base
  import opened Strings
  import opened Seqs
  import opened Api

  /** One entry row; every field is the text typed into its input. */
  datatype Row = Row(name: string, description: string, price: string, category: string,
                     brand: string, stock: string, images: string)

  /** The `name` attribute of each input. */
  datatype RowField = NameField | DescriptionField | PriceField | CategoryField | BrandField | StockField | ImagesField

  const BlankRow := Row("", "", "", "", "", "", "")

  function GetField(r: Row, f: RowField): string {
    match f
    case NameField => r.name
    case DescriptionField => r.description
    case PriceField => r.price
    case CategoryField => r.category
    case BrandField => r.brand
    case StockField => r.stock
    case ImagesField => r.images
  }

  /** `{ ...row, [name]: value }` */
  function SetField(r: Row, f: RowField, v: string): (r': Row)
    ensures GetField(r', f) == v
    ensures forall g :: g != f ==> GetField(r', g) == GetField(r, g)
  {
    match f
    case NameField => r.(name := v)
    case DescriptionField => r.(description := v)
    case PriceField => r.(price := v)
    case CategoryField => r.(category := v)
    case BrandField => r.(brand := v)
    case StockField => r.(stock := v)
    case ImagesField => r.(images := v)
  }

  /** `handleChange(index, e)`: only the named field of row `index` changes. */
  function Change(rows: seq<Row>, index: int, f: RowField, v: string): (r: seq<Row>)
    requires 0 <= index < |rows|
    ensures |r| == |rows|
    ensures GetField(r[index], f) == v
    ensures forall g :: g != f ==> GetField(r[index], g) == GetField(rows[index], g)
    ensures forall j :: 0 <= j < |rows| && j != index ==> r[j] == rows[j]
  {
    rows[index := SetField(rows[index], f, v)]
  }

  /** `addRow`: one blank row at the end, the others untouched. */
  function AddRow(rows: seq<Row>): (r: seq<Row>)
    ensures |r| == |rows| + 1 && r[|rows|] == BlankRow && r[..|rows|] == rows
  {
    rows + [BlankRow]
  }

  /** `rows.filter((_, i) => i !== index)`, walking the rows in order. */
  function DropIndex(rows: seq<Row>, index: int): (r: seq<Row>)
    ensures 0 <= index < |rows| ==> r == rows[..index] + rows[index + 1..]
    ensures !(0 <= index < |rows|) ==> r == rows
    decreases |rows|
  {
    if |rows| == 0 then []
    else
      var rest := DropIndex(rows[1..], index - 1);
      if index == 0 then
        assert rest == rows[1..];
        rest
      else if 0 < index < |rows| then
        assert rows[..index] == [rows[0]] + rows[1..][..index - 1];
        assert rows[index + 1..] == rows[1..][index..];
        [rows[0]] + rest
      else
        assert rows == [rows[0]] + rows[1..];
        [rows[0]] + rest
  }

  /** `removeRow`: ignored while a single row is left; otherwise exactly row
      `index` goes and the others keep their order. */
  function RemoveRow(rows: seq<Row>, index: int): (r: seq<Row>)
    ensures |rows| == 1 ==> r == rows
    ensures |rows| != 1 && 0 <= index < |rows| ==> r == rows[..index] + rows[index + 1..]
    ensures !(0 <= index < |rows|) ==> r == rows
  {
    if |rows| == 1 then rows else DropIndex(rows, index)
  }

  predicate NonEmpty(s: string) {
    s != ""
  }

  /** `images.split(',').map(img => img.trim()).filter(img => img !== "")` */
  function ParseImages(s: string): (r: seq<string>)
    ensures forall k :: 0 <= k < |r| ==> r[k] != "" && Trimmed(r[k]) && ',' !in r[k]
  {
    var parts := Split(s, ',');
    var pieces := Map(parts, Trim);
    assert forall k :: 0 <= k < |pieces| ==> ',' !in pieces[k] by {
      forall k | 0 <= k < |pieces| ensures ',' !in pieces[k] {
        TrimAddsNothing(parts[k], ',');
      }
    }
    Filter(pieces, NonEmpty)
  }

  /** The entries of one image field concatenated with another's are the
      entries of both, in order. */
  lemma ParseImagesAround(a: string, b: string)
    ensures ParseImages(a + [','] + b) == ParseImages(a) + ParseImages(b)
  {
    SplitAround(a, b, ',');
    var sa, sb := Split(a, ','), Split(b, ',');
    MapConcat(sa, sb, Trim);
    FilterConcat(Map(sa, Trim), Map(sb, Trim), NonEmpty);
  }

  /** An empty image field holds no image. */
  lemma ParseImagesEmpty()
    ensures ParseImages("") == []
  {
    var pieces := Map(Split("", ','), Trim);
    assert pieces == [Trim("")];
    assert Trim("") == "";
  }

  /** A list of image URLs typed comma-separated is read back as the same list
      when no URL is empty, has edge white space, or contains a comma. */
  lemma ParseImagesJoin(urls: seq<string>)
    requires forall k :: 0 <= k < |urls| ==> urls[k] != "" && Trimmed(urls[k]) && ',' !in urls[k]
    ensures ParseImages(Join(urls, [','])) == urls
  {
    if |urls| == 0 {
      ParseImagesEmpty();
    } else {
      ParseImagesJoinSome(urls);
    }
  }

  lemma ParseImagesJoinSome(urls: seq<string>)
    requires |urls| >= 1
    requires forall k :: 0 <= k < |urls| ==> urls[k] != "" && Trimmed(urls[k]) && ',' !in urls[k]
    ensures ParseImages(Join(urls, [','])) == urls
  {
    SplitJoin(urls, ',');
    assert Map(urls, Trim) == urls;
    FilterKeepsAll(urls, NonEmpty);
  }

  /** One entry of the upload payload. Price and stock stay text here: their
      `Number(...)` conversion is not modelled. */
  datatype PayloadEntry = PayloadEntry(name: string, description: string, price: string, category: string,
                                       brand: string, stock: string, images: seq<string>)

  function Entry(r: Row): PayloadEntry {
    PayloadEntry(r.name, r.description, r.price, r.category, r.brand, r.stock, ParseImages(r.images))
  }

  /** The payload of `submitProducts`: one entry per row, in row order. */
  function Payload(rows: seq<Row>): (p: seq<PayloadEntry>)
    ensures |p| == |rows|
    ensures forall k :: 0 <= k < |rows| ==>
              p[k].name == rows[k].name && p[k].description == rows[k].description
              && p[k].category == rows[k].category && p[k].brand == rows[k].brand
              && p[k].price == rows[k].price && p[k].stock == rows[k].stock
              && p[k].images == ParseImages(rows[k].images)
  {
    Map(rows, Entry)
  }

  datatype Status = Uploaded(count: int) | UploadFailed(message: string)

  datatype AdminState = AdminState(rows: seq<Row>, loading: bool, status: Option<Status>, serverUp: Option<bool>)

  function Initial(): AdminState {
    AdminState([BlankRow], false, None, None)
  }

  /** `submitProducts`, given how `POST /products/add-multiple` settled (with
      the `count` of the response on success): success resets to one blank row,
      failure keeps the rows and reports `handleApiError`'s text. */
  function Submit(s: AdminState, call: Settled<int>, protocol: string): (r: AdminState)
    ensures !r.loading
    ensures call.Resolved? ==> r.rows == [BlankRow] && r.status == Some(Uploaded(call.value)) && r.serverUp == Some(true)
    ensures call.Rejected? ==> r.rows == s.rows && r.serverUp == Some(false)
    ensures call.Rejected? ==> r.status == Some(UploadFailed(HandleApiError(call.error, protocol)))
  {
    var started := s.(loading := true, status := None);
    var settled :=
      match call
      case Resolved(count) => started.(status := Some(Uploaded(count)), rows := [BlankRow], serverUp := Some(true))
      case Rejected(e) => started.(status := Some(UploadFailed(HandleApiError(e, protocol))), serverUp := Some(false));
    settled.(loading := false)
  }

  datatype AdminEvent =
    | Edited(index: int, field: RowField, value: string)
    | RowAdded
    | RowRemoved(index: int)
    | Submitted(call: Settled<int>, protocol: string)
    | HealthChecked(healthy: bool)

  function Apply(s: AdminState, e: AdminEvent): AdminState {
    match e
    case Edited(i, f, v) => if 0 <= i < |s.rows| then s.(rows := Change(s.rows, i, f, v)) else s
    case RowAdded => s.(rows := AddRow(s.rows))
    case RowRemoved(i) => s.(rows := RemoveRow(s.rows, i))
    case Submitted(call, protocol) => Submit(s, call, protocol)
    case HealthChecked(healthy) => s.(serverUp := Some(healthy))
  }

  function Run(s: AdminState, events: seq<AdminEvent>): AdminState
    decreases |events|
  {
    if |events| == 0 then s else Run(Apply(s, events[0]), events[1..])
  }

  /** The form never has fewer than one row. */
  lemma {:induction false} RowsNeverEmpty(s: AdminState, events: seq<AdminEvent>)
    requires |s.rows| >= 1
    ensures |Run(s, events).rows| >= 1
    decreases |events|
  {
    if |events| > 0 {
      var next := Apply(s, events[0]);
      assert |next.rows| >= 1 by {
        match events[0]
        case Edited(i, f, v) =>
        case RowAdded =>
        case RowRemoved(i) =>
          if |s.rows| != 1 && 0 <= i < |s.rows| {
            assert |s.rows[..i] + s.rows[i + 1..]| == |s.rows| - 1;
          }
        case Submitted(call, protocol) =>
        case HealthChecked(healthy) =>
      }
      RowsNeverEmpty(next, events[1..]);
    }
  }

  /** The form opens with one blank row, so it never has fewer than one. */
  lemma InitialRowsNeverEmpty(events: seq<AdminEvent>)
    ensures |Initial().rows| == 1
    ensures |Run(Initial(), events).rows| >= 1
  {
    RowsNeverEmpty(Initial(), events);
  }
}
