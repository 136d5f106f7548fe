/** The add-collection wizard (public/js/collection-add.js): up to five
    images, the guards of its next buttons, the price inputs that clear
    themselves, and the previous-owner rows whose dates are kept in order
    and not in the future. Dates are the `YYYY-MM-DD` strings of the date
    inputs, compared as strings the way the page compares them; today's
    date is fixed when the page loads. */
module CollectionAdd {
  import opened Common
  import opened Text

  const MaxImages := 5

  // ---------------------------------------------------------------- string order

  /** JavaScript's `a < b` on strings: the first differing character
      decides, and a proper prefix comes first. */
  predicate Precedes(a: string, b: string) {
    if a == [] then b != []
    else if b == [] then false
    else a[0] < b[0] || (a[0] == b[0] && Precedes(a[1..], b[1..]))
  }

  lemma {:induction false} PrecedesIrreflexive(a: string)
    ensures !Precedes(a, a)
  {
    if a != [] {
      PrecedesIrreflexive(a[1..]);
    }
  }

  lemma {:induction false} PrecedesTransitive(a: string, b: string, c: string)
    requires Precedes(a, b) && Precedes(b, c)
    ensures Precedes(a, c)
  {
    if a != [] && a[0] == b[0] && b[0] == c[0] {
      PrecedesTransitive(a[1..], b[1..], c[1..]);
    }
  }

  /** Two different strings are ordered one way or the other. */
  lemma {:induction false} PrecedesTotal(a: string, b: string)
    ensures a == b || Precedes(a, b) || Precedes(b, a)
  {
    if a != [] && b != [] && a[0] == b[0] {
      PrecedesTotal(a[1..], b[1..]);
      if a[1..] == b[1..] {
        assert a == [a[0]] + a[1..] && b == [b[0]] + b[1..];
      }
    }
  }

  /** `a <= b` */
  predicate NotAfter(a: string, b: string) {
    !Precedes(b, a)
  }

  // ---------------------------------------------------------------- prices and details

  /** `parseInt(value, 10) < 1`; NaN compares false, so text without
      leading digits passes. */
  predicate PriceBelowOne(value: string) {
    var v := ParseInt10(value);
    v.Some? && v.value < 1
  }

  /** The values of the details step. */
  datatype Details = Details(brand: string, boughtOn: string, boughtAtPrice: string, marketPrice: string)

  /** A guard's verdict. */
  datatype Check = Pass | Refuse(message: string)

  /** The guard of the details step's next button. */
  function DetailsCheck(d: Details): Check {
    if Trim(d.brand) == "" || d.boughtOn == "" || d.boughtAtPrice == "" || d.marketPrice == "" then
      Refuse("Please complete all details before continuing.")
    else if PriceBelowOne(d.boughtAtPrice) || PriceBelowOne(d.marketPrice) then
      Refuse("Prices must be greater than zero.")
    else Pass
  }

  /** The details pass exactly when the brand is not blank, nothing is
      empty and neither price reads below one. */
  lemma DetailsCheckSpec(d: Details)
    ensures DetailsCheck(d).Pass? <==>
              Trim(d.brand) != "" && d.boughtOn != "" && d.boughtAtPrice != "" && d.marketPrice != ""
              && !PriceBelowOne(d.boughtAtPrice) && !PriceBelowOne(d.marketPrice)
  {
  }

  /** Prices written as whole numbers pass exactly when they are at least
      one. */
  lemma WholePrices(n: nat)
    ensures PriceBelowOne(NatToString(n)) <==> n == 0
  {
    ParseIntOfNatToString(n);
  }

  /** A price input after its `input` or `blur` handler: a value that reads
      below one is cleared with a toast. (The blur handler's extra test for
      an empty value changes nothing: the empty value reads as NaN.) */
  function PriceInput(value: string): (r: (string, bool))
    ensures r.1 <==> PriceBelowOne(value)
    ensures r.1 ==> r.0 == ""
    ensures !r.1 ==> r.0 == value
  {
    if PriceBelowOne(value) then ("", true) else (value, false)
  }

  /** A checked price stays as it is when checked again. */
  lemma PriceInputSettles(value: string)
    ensures var r := PriceInput(value);
            !PriceBelowOne(r.0) && PriceInput(r.0) == (r.0, false)
  {
    var r := PriceInput(value);
    if r.1 {
      ParseIntNoDigits("");
    }
  }

  // ---------------------------------------------------------------- owner rows

  /** One previous-owner row: its name, the two date values and the `min`
      attributes of the two date inputs. */
  datatype OwnerRow = OwnerRow(name: string, from: string, to: string, fromMin: string, toMin: string)

  /** A row whose dates are not in the future and in order when both are
      set. */
  predicate DatesOk(row: OwnerRow, today: string) {
    NotAfter(row.from, today) && NotAfter(row.to, today)
    && (row.from == "" || row.to == "" || NotAfter(row.from, row.to))
  }

  /** The `change` handler of a row's "From" input with the new value. The
      "To" input's `min` follows the value as typed. */
  function FromChanged(row: OwnerRow, value: string, today: string): (r: (OwnerRow, seq<string>))
    ensures |r.1| <= 2
  {
    var row1 := row.(from := value, toMin := value);
    var early := row1.to != "" && Precedes(row1.to, value);
    var row2 := if early then row1.(to := "") else row1;
    var toasts2 := if early then ["\"To\" date cannot be before \"From\" date."] else [];
    if Precedes(today, value) then
      (row2.(from := today, to := ""), toasts2 + ["\"From\" date cannot be in the future."])
    else (row2, toasts2)
  }

  /** The `change` handler of a row's "To" input with the new value. */
  function ToChanged(row: OwnerRow, value: string, today: string): (r: (OwnerRow, seq<string>))
    ensures |r.1| <= 2
  {
    var early := row.from != "" && Precedes(value, row.from);
    var row1 := row.(to := if early then "" else value);
    var toasts1 := if early then ["\"To\" date cannot be before \"From\" date."] else [];
    if Precedes(today, row1.to) then
      (row1.(to := today), toasts1 + ["\"To\" date cannot be in the future."])
    else (row1, toasts1)
  }

  /** Whatever is typed into "From", the row's dates end up valid, provided
      "To" was not in the future. */
  lemma FromChangedKeepsDates(row: OwnerRow, value: string, today: string)
    requires NotAfter(row.to, today)
    ensures DatesOk(FromChanged(row, value, today).0, today)
  {
    PrecedesIrreflexive(today);
    if !Precedes(today, value) && row.to != "" && !Precedes(row.to, value) {
      PrecedesTotal(value, row.to);
    }
  }

  /** Whatever is typed into "To", the row's dates end up valid, provided
      "From" was not in the future. */
  lemma ToChangedKeepsDates(row: OwnerRow, value: string, today: string)
    requires NotAfter(row.from, today)
    ensures DatesOk(ToChanged(row, value, today).0, today)
  {
    PrecedesIrreflexive(today);
  }

  /** The date a new row starts from: the last row's "To" value, else that
      input's `min`, else nothing. */
  function MinFromDate(rows: seq<OwnerRow>): string {
    if rows == [] then ""
    else
      var last := rows[|rows| - 1];
      if last.to != "" then last.to else last.toMin
  }

  /** The add-owner button as intended: a new row whose "From" is preset
      to, and whose inputs may not go below, the date the last row ends. */
  function OwnerAdded(rows: seq<OwnerRow>): (r: seq<OwnerRow>)
    ensures |r| == |rows| + 1 && r[..|rows|] == rows
  {
    var m := MinFromDate(rows);
    rows + [OwnerRow("", m, "", m, m)]
  }

  /** As written, the handler names an undefined global and throws before
      it reaches the rows: the rows stay as they were. */
  function OwnerAddedAsWritten(rows: seq<OwnerRow>): seq<OwnerRow> {
    rows
  }

  /** As written no click ever adds a row, so no previous owner can be
      entered; as intended every click adds one. */
  lemma OwnerAddedAsWrittenAddsNothing(rows: seq<OwnerRow>)
    ensures |OwnerAddedAsWritten(rows)| == |rows| < |OwnerAdded(rows)|
    ensures OwnerAddedAsWritten(OwnerAddedAsWritten([])) == []
  {
  }

  /** A new row takes over where the last one ends, and keeps valid dates
      when that end is valid. */
  lemma OwnerAddedChains(rows: seq<OwnerRow>, today: string)
    requires rows != [] && rows[|rows| - 1].to != ""
    requires NotAfter(rows[|rows| - 1].to, today)
    ensures var r := OwnerAdded(rows);
            r[|rows|].from == rows[|rows| - 1].to && DatesOk(r[|rows|], today)
  {
  }

  /** The clamp of "From" does not reach the `min` it already gave "To": a
      future "From" that was clamped still presets the next row. */
  lemma FutureFromCarriesOver(today: string, future: string)
    requires Precedes(today, future)
    ensures var row := FromChanged(OwnerRow("a", "", "", "", ""), future, today).0;
            row.from == today && OwnerAdded([row])[1].from == future
  {
  }

  // ---------------------------------------------------------------- the form

  /** The wizard's fields: the step shown, the images held, whether the
      add-more button shows, the details' values, the owner rows and the
      toasts. */
  datatype FormState = FormState(
    step: int,
    images: seq<string>,
    addMoreShown: bool,
    details: Details,
    owners: seq<OwnerRow>,
    toasts: seq<string>)

  /** The image cap holds and the add-more button shows exactly below it. */
  predicate Capped(p: FormState) {
    |p.images| <= MaxImages && (p.addMoreShown <==> |p.images| < MaxImages)
  }

  /** The first next button: at least one image is needed. */
  function NextFromImages(p: FormState): FormState {
    if |p.images| == 0 then p.(toasts := p.toasts + ["Please upload at least one image before proceeding."])
    else p.(step := 1)
  }

  /** The second next button: the details must pass. */
  function NextFromDetails(p: FormState): FormState {
    match DetailsCheck(p.details)
    case Refuse(m) => p.(toasts := p.toasts + [m])
    case Pass => p.(step := 2)
  }

  /** A previous button: one step back. */
  function Previous(p: FormState): FormState {
    p.(step := p.step - 1)
  }

  /** Files picked: a batch that would pass five images is refused whole;
      otherwise every file is added. */
  function FilesChosen(p: FormState, files: seq<string>): FormState {
    if |p.images| + |files| > MaxImages then p.(toasts := p.toasts + ["Can't add more than 5"])
    else
      var images := p.images + files;
      p.(images := images, addMoreShown := |images| < MaxImages)
  }

  /** The remove button of image `k`. */
  function ImageRemoved(p: FormState, k: nat): FormState
    requires k < |p.images|
  {
    var images := p.images[..k] + p.images[k + 1..];
    p.(images := images, addMoreShown := |images| < MaxImages)
  }

  /** An edit of one of the two price inputs. */
  function PriceEdited(p: FormState, market: bool, value: string): FormState {
    var r := PriceInput(value);
    var d := if market then p.details.(marketPrice := r.0) else p.details.(boughtAtPrice := r.0);
    p.(details := d, toasts := p.toasts + (if r.1 then ["Price cannot be zero or negative."] else []))
  }

  /** An edit of the "From" date of row `k`. */
  function FromEdited(p: FormState, k: nat, value: string, today: string): FormState
    requires k < |p.owners|
  {
    var r := FromChanged(p.owners[k], value, today);
    p.(owners := p.owners[k := r.0], toasts := p.toasts + r.1)
  }

  /** An edit of the "To" date of row `k`. */
  function ToEdited(p: FormState, k: nat, value: string, today: string): FormState
    requires k < |p.owners|
  {
    var r := ToChanged(p.owners[k], value, today);
    p.(owners := p.owners[k := r.0], toasts := p.toasts + r.1)
  }

  /** The remove button of row `k`. */
  function OwnerRemoved(p: FormState, k: nat): FormState
    requires k < |p.owners|
  {
    p.(owners := p.owners[..k] + p.owners[k + 1..])
  }

  /** Every image handler keeps the cap and the add-more button in step. */
  lemma ImagesStayCapped(p: FormState, files: seq<string>, k: nat)
    requires Capped(p)
    ensures Capped(FilesChosen(p, files))
    ensures k < |p.images| ==> Capped(ImageRemoved(p, k))
    ensures |p.images| + |files| <= MaxImages ==> FilesChosen(p, files).images == p.images + files
    ensures |p.images| + |files| > MaxImages ==> FilesChosen(p, files).images == p.images
  {
  }

  /** From the images step, the first next button shows the details step
      only with an image, and the details step's own next button then
      shows the owners step only with details that pass. */
  lemma OwnersStepNeedsImagesAndDetails(p: FormState)
    requires p.step == 0
    ensures var q := NextFromImages(p);
            (q.step == 1 && NextFromDetails(q).step == 2) <==>
              |p.images| > 0 && DetailsCheck(p.details).Pass?
  {
  }

  /** A price edit leaves no price that reads below one in that input. */
  lemma PriceEditedSettles(p: FormState, market: bool, value: string)
    ensures var d := PriceEdited(p, market, value).details;
            !PriceBelowOne(if market then d.marketPrice else d.boughtAtPrice)
  {
    PriceInputSettles(value);
  }

  class CollectionForm {
    var step: int
    var images: seq<string>
    var addMoreShown: bool
    var details: Details
    var owners: seq<OwnerRow>
    var toasts: seq<string>
    /** `todayStr`, fixed when the page loads. */
    const today: string

    function State(): FormState
      reads this
    {
      FormState(step, images, addMoreShown, details, owners, toasts)
    }

    predicate Valid()
      reads this
    {
      Capped(State())
    }

    constructor (today: string)
      ensures Valid() && this.today == today
      ensures State() == FormState(0, [], true, Details("", "", "", ""), [], [])
    {
      this.today := today;
      step := 0;
      images := [];
      addMoreShown := true;
      details := Details("", "", "", "");
      owners := [];
      toasts := [];
    }

    method NextFromImagesClicked()
      requires Valid()
      modifies this
      ensures Valid() && State() == NextFromImages(old(State()))
    {
      if |images| == 0 {
        toasts := toasts + ["Please upload at least one image before proceeding."];
        return;
      }
      step := 1;
    }

    method NextFromDetailsClicked()
      requires Valid()
      modifies this
      ensures Valid() && State() == NextFromDetails(old(State()))
    {
      var check := DetailsCheck(details);
      if check.Refuse? {
        toasts := toasts + [check.message];
        return;
      }
      step := 2;
    }

    method PreviousClicked()
      requires Valid()
      modifies this
      ensures Valid() && State() == Previous(old(State()))
    {
      step := step - 1;
    }

    /** The file input's `change` handler. */
    method ChooseFiles(files: seq<string>)
      requires Valid()
      modifies this
      ensures Valid() && State() == FilesChosen(old(State()), files)
    {
      if |images| + |files| > MaxImages {
        toasts := toasts + ["Can't add more than 5"];
        return;
      }
      images := images + files;
      addMoreShown := |images| < MaxImages;
    }

    method RemoveImage(k: nat)
      requires Valid() && k < |images|
      modifies this
      ensures Valid() && State() == ImageRemoved(old(State()), k)
    {
      images := images[..k] + images[k + 1..];
      addMoreShown := |images| < MaxImages;
    }

    method EditPrice(market: bool, value: string)
      requires Valid()
      modifies this
      ensures Valid() && State() == PriceEdited(old(State()), market, value)
    {
      ghost var next := PriceEdited(State(), market, value);
      var r := PriceInput(value);
      if market {
        details := details.(marketPrice := r.0);
      } else {
        details := details.(boughtAtPrice := r.0);
      }
      if r.1 {
        toasts := toasts + ["Price cannot be zero or negative."];
      }
      assert State() == next;
    }

    /** The add-owner button, with the undefined global read as
        `document`. */
    method AddOwner()
      requires Valid()
      modifies this
      ensures Valid() && State() == old(State()).(owners := OwnerAdded(old(owners)))
    {
      owners := OwnerAdded(owners);
    }

    method EditFrom(k: nat, value: string)
      requires Valid() && k < |owners|
      modifies this
      ensures Valid() && State() == FromEdited(old(State()), k, value, today)
    {
      var r := FromChanged(owners[k], value, today);
      owners := owners[k := r.0];
      toasts := toasts + r.1;
    }

    method EditTo(k: nat, value: string)
      requires Valid() && k < |owners|
      modifies this
      ensures Valid() && State() == ToEdited(old(State()), k, value, today)
    {
      var r := ToChanged(owners[k], value, today);
      owners := owners[k := r.0];
      toasts := toasts + r.1;
    }

    method RemoveOwner(k: nat)
      requires Valid() && k < |owners|
      modifies this
      ensures Valid() && State() == OwnerRemoved(old(State()), k)
    {
      owners := owners[..k] + owners[k + 1..];
    }
  }
}
