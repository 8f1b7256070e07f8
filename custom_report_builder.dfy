/**
 * The custom report builder of the frontend: the field selection toggle, the form
 * validation, the date-range switch and the request payload it posts.
 */
module CustomReportBuilder {
  import opened Basics
  import opened Text

  const CUSTOM: string := "custom"
  const DEFAULT_RANGE: string := "last_30_days"

  /** The values the form holds. */
  datatype ReportForm = ReportForm(
    reportName: string, selectedType: string, selectedFields: seq<string>,
    dateRange: string, customStartDate: string, customEndDate: string)

  /** `handleFieldToggle`: a selected id is removed, any other appended. */
  function Toggle(fields: seq<string>, id: string): (r: seq<string>)
    ensures id in r <==> id !in fields
    ensures forall x :: x != id ==> (x in r <==> x in fields)
    ensures id !in fields ==> r == fields + [id]
    ensures id in fields ==> r == Without(fields, id)
    ensures Distinct(fields) ==> Distinct(r)
  {
    if id in fields then Without(fields, id) else fields + [id]
  }

  /** `prev.filter((id) => id !== fieldId)`. */
  function Without(fields: seq<string>, id: string): (r: seq<string>)
    ensures forall x :: x in r <==> x in fields && x != id
    ensures id !in fields ==> r == fields
    ensures Distinct(fields) ==> Distinct(r)
  {
    if fields == [] then []
    else
      var rest := Without(fields[1..], id);
      assert forall x :: x in fields <==> x == fields[0] || x in fields[1..];
      assert Distinct(fields) ==> Distinct(fields[1..]) && fields[0] !in fields[1..] by {
        if Distinct(fields) {
          forall k | 0 <= k < |fields[1..]| ensures fields[1..][k] != fields[0] {
            assert fields[1..][k] == fields[k + 1];
          }
        }
      }
      if fields[0] == id then rest
      else
        var r := [fields[0]] + rest;
        assert Distinct(fields) ==> Distinct(r) by {
          if Distinct(fields) {
            forall i, j | 0 <= i < j < |r| ensures r[i] != r[j] {
              if i == 0 {
                assert r[j] == rest[j - 1];
                assert r[j] in rest;
              } else {
                assert r[i] == rest[i - 1] && r[j] == rest[j - 1];
              }
            }
          }
        }
        r
  }

  /**
   * Toggling an id twice gives back the same selection as a set; the list itself
   * is unchanged exactly when the id was not selected, since a re-added id goes last.
   */
  lemma ToggleTwice(fields: seq<string>, id: string)
    ensures forall x :: x in Toggle(Toggle(fields, id), id) <==> x in fields
    ensures id !in fields ==> Toggle(Toggle(fields, id), id) == fields
  {
    if id !in fields {
      assert Without(fields + [id], id) == Without(fields, id) + Without([id], id) by {
        WithoutAppend(fields, [id], id);
      }
      assert Without([id], id) == [] by {
        assert [id][1..] == [];
      }
    }
  }

  /** The filter keeps exactly the other ids, in their order. */
  lemma {:induction false} WithoutIsFilter(fields: seq<string>, id: string)
    ensures Without(fields, id) == Filter(fields, (x: string) => x != id)
    decreases |fields|
  {
    if fields != [] {
      WithoutIsFilter(fields[1..], id);
      assert fields == [fields[0]] + fields[1..];
      FilterCons(fields[0], fields[1..], (x: string) => x != id);
    }
  }

  /** The filter keeps the order of the ids that remain: it distributes over concatenation. */
  lemma {:induction false} WithoutAppend(xs: seq<string>, ys: seq<string>, id: string)
    ensures Without(xs + ys, id) == Without(xs, id) + Without(ys, id)
  {
    if xs == [] {
      assert xs + ys == ys;
    } else {
      assert (xs + ys)[1..] == xs[1..] + ys;
      WithoutAppend(xs[1..], ys, id);
    }
  }

  // ----- Validation -----

  /** The messages `validateForm` records; `Cleared` is the empty string the range switch stores. */
  datatype Message =
    | NameRequired | TypeRequired | FieldsRequired | RangeRequired
    | StartRequired | EndRequired | StartAfterEnd | Cleared
  {
    function Text(): string {
      match this
      case NameRequired => "Report name is required"
      case TypeRequired => "Report type is required"
      case FieldsRequired => "At least one data field must be selected"
      case RangeRequired => "Date range is required"
      case StartRequired => "Start date is required for custom range"
      case EndRequired => "End date is required for custom range"
      case StartAfterEnd => "Start date cannot be after end date"
      case Cleared => ""
    }
  }

  /** The error object, one optional message per key. */
  datatype ReportErrors = ReportErrors(
    reportName: Option<Message>, selectedType: Option<Message>, selectedFields: Option<Message>,
    dateRange: Option<Message>, customStartDate: Option<Message>, customEndDate: Option<Message>)
  {
    /** `Object.keys(errors).length === 0`. */
    predicate Empty() {
      && reportName.None? && selectedType.None? && selectedFields.None?
      && dateRange.None? && customStartDate.None? && customEndDate.None?
    }
  }

  const NO_ERRORS: ReportErrors := ReportErrors(None, None, None, None, None, None)

  /**
   * The errors of `validateForm`: a blank name, no type, no field or no range is an
   * error; for a custom range a missing date is, and a start after the end replaces
   * the start error.
   */
  function ErrorsOf(f: ReportForm): (e: ReportErrors)
    ensures e.reportName.Some? <==> Trim(f.reportName) == []
    ensures e.selectedType.Some? <==> f.selectedType == []
    ensures e.selectedFields.Some? <==> |f.selectedFields| == 0
    ensures e.dateRange.Some? <==> f.dateRange == []
    ensures e.customStartDate.Some? <==>
      f.dateRange == CUSTOM && (f.customStartDate == [] || (f.customEndDate != [] && LessThan(f.customEndDate, f.customStartDate)))
    ensures e.customEndDate.Some? <==> f.dateRange == CUSTOM && f.customEndDate == []
    ensures e.customStartDate == Some(StartAfterEnd) <==>
      f.dateRange == CUSTOM && f.customStartDate != [] && f.customEndDate != [] && LessThan(f.customEndDate, f.customStartDate)
    ensures f.dateRange != CUSTOM ==> e.customStartDate.None? && e.customEndDate.None?
  {
    var custom := f.dateRange == CUSTOM;
    ReportErrors(
      if Trim(f.reportName) == [] then Some(NameRequired) else None,
      if f.selectedType == [] then Some(TypeRequired) else None,
      if |f.selectedFields| == 0 then Some(FieldsRequired) else None,
      if f.dateRange == [] then Some(RangeRequired) else None,
      if !custom then None
      else if f.customStartDate != [] && f.customEndDate != [] && LessThan(f.customEndDate, f.customStartDate) then Some(StartAfterEnd)
      else if f.customStartDate == [] then Some(StartRequired)
      else None,
      if custom && f.customEndDate == [] then Some(EndRequired) else None)
  }

  /** `isFormValid`, the condition that enables the generate button. */
  predicate IsFormValid(f: ReportForm) {
    && Trim(f.reportName) != []
    && f.selectedType != []
    && |f.selectedFields| > 0
    && f.dateRange != []
    && (f.dateRange != CUSTOM || (f.customStartDate != [] && f.customEndDate != [] && !LessThan(f.customEndDate, f.customStartDate)))
  }

  /** The button is enabled exactly when validation would record no error. */
  lemma FormValidIffNoErrors(f: ReportForm)
    ensures IsFormValid(f) <==> ErrorsOf(f).Empty()
  {
  }

  /** A custom range whose start and end are the same day passes the order check. */
  lemma SameDayRangeValid(f: ReportForm)
    requires f.dateRange == CUSTOM && f.customStartDate != [] && f.customStartDate == f.customEndDate
    ensures ErrorsOf(f).customStartDate.None? && ErrorsOf(f).customEndDate.None?
  {
    LessThanIrreflexive(f.customStartDate);
  }

  /** The request body: custom dates only for a custom range. */
  datatype ReportConfig = ReportConfig(
    reportName: string, selectedType: string, selectedFields: seq<string>, dateRange: string,
    customStartDate: Option<string>, customEndDate: Option<string>)

  /** The payload `handleGenerateReport` posts. */
  function Payload(f: ReportForm): (c: ReportConfig)
    ensures c.reportName == Trim(f.reportName)
    ensures c.selectedType == f.selectedType && c.selectedFields == f.selectedFields && c.dateRange == f.dateRange
    ensures c.customStartDate.Some? <==> f.dateRange == CUSTOM
    ensures c.customEndDate.Some? <==> f.dateRange == CUSTOM
    ensures f.dateRange == CUSTOM ==> c.customStartDate == Some(f.customStartDate) && c.customEndDate == Some(f.customEndDate)
  {
    var base := ReportConfig(Trim(f.reportName), f.selectedType, f.selectedFields, f.dateRange, None, None);
    if f.dateRange == CUSTOM then base.(customStartDate := Some(f.customStartDate), customEndDate := Some(f.customEndDate))
    else base
  }

  /** The successive recording of `validateForm`. */
  method RecordErrors(f: ReportForm) returns (e: ReportErrors)
    ensures e == ErrorsOf(f)
  {
    e := NO_ERRORS;
    if Trim(f.reportName) == [] {
      e := e.(reportName := Some(NameRequired));
    }
    if f.selectedType == [] {
      e := e.(selectedType := Some(TypeRequired));
    }
    if |f.selectedFields| == 0 {
      e := e.(selectedFields := Some(FieldsRequired));
    }
    if f.dateRange == [] {
      e := e.(dateRange := Some(RangeRequired));
    }
    if f.dateRange == CUSTOM {
      if f.customStartDate == [] {
        e := e.(customStartDate := Some(StartRequired));
      }
      if f.customEndDate == [] {
        e := e.(customEndDate := Some(EndRequired));
      }
      if f.customStartDate != [] && f.customEndDate != [] && LessThan(f.customEndDate, f.customStartDate) {
        e := e.(customStartDate := Some(StartAfterEnd));
      }
    }
  }

  /** The builder's state. */
  class Builder {
    var form: ReportForm
    var errors: ReportErrors

    constructor ()
      ensures form == ReportForm("", "", [], DEFAULT_RANGE, "", "") && errors == NO_ERRORS
    {
      form := ReportForm("", "", [], DEFAULT_RANGE, "", "");
      errors := NO_ERRORS;
    }

    method HandleFieldToggle(id: string)
      modifies this
      ensures form == old(form).(selectedFields := Toggle(old(form).selectedFields, id))
      ensures errors == old(errors)
    {
      form := form.(selectedFields := Toggle(form.selectedFields, id));
    }

    /** `validateForm`: the errors recorded afresh; valid exactly when there are none. */
    method ValidateForm() returns (ok: bool)
      modifies this
      ensures form == old(form) && errors == ErrorsOf(form)
      ensures ok <==> IsFormValid(form)
    {
      var e := RecordErrors(form);
      FormValidIffNoErrors(form);
      errors := e;
      ok := e.Empty();
    }

    /**
     * `handleDateRangeChange`: the new range; away from a custom range both custom
     * dates are emptied and their errors set to the empty string.
     */
    method HandleDateRangeChange(value: string)
      modifies this
      ensures value != CUSTOM ==>
        && form == old(form).(dateRange := value, customStartDate := "", customEndDate := "")
        && errors == old(errors).(customStartDate := Some(Cleared), customEndDate := Some(Cleared))
      ensures value == CUSTOM ==> form == old(form).(dateRange := value) && errors == old(errors)
    {
      form := form.(dateRange := value);
      if value != CUSTOM {
        form := form.(customStartDate := "", customEndDate := "");
        errors := errors.(customStartDate := Some(Cleared), customEndDate := Some(Cleared));
      }
    }
  }
}
