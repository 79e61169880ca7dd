/**
 * `src/sql_to_fnc-www.lib.ts`: the Angular edit and list components of
 * the table. The edit component holds a reactive form with one control per
 * field; its template shows one form field per field, and the widget
 * follows the field's type. The list component shows one column per
 * field, searches on the second field and edits and deletes rows by the
 * first.
 *
 * `snakeToCamel`, `snakeToDash` and `datePlaceholder` are not part of this
 * model, so what they give is passed in: `camelDefault` is
 * `snakeToCamel(tblName)`, `camelName` is `snakeToCamel(tblName, false)`,
 * `dashName` is `snakeToDash(tblName)`, `camelField` is `snakeToCamel`
 * applied to a field name, and `datePlaceholder` is the constant.
 */
module WwwLib {
  import opened JsText
  import opened Definitions
  import opened Common
  import TestLib
  import ApiLib
  import Scanner

  // ------------------------------------------------- edit.component.ts

  /** The initial value of a field's form control, by the shared categories. */
  function InitialValue(item: FieldDefinition): string {
    if IsNumber(item) then "0" else if IsBoolean(item) then "true" else "''"
  }

  const RequiredValidator: string := ", Validators.required"

  /** One control of the form group: `field: [initial value, required validator if NOT NULL],`. */
  function ControlEntry(item: FieldDefinition): string {
    ControlStart(item.field) + InitialValue(item) + Optional(item.notNull, RequiredValidator) + "],"
  }

  function ControlStart(field: string): string {
    "      " + field + ": ["
  }

  /** The controls of the form group, one line per field in input order. */
  function FormControls(fields: seq<FieldDefinition>): string {
    Terminated(MapText(fields, ControlEntry), "\n")
  }

  /** One iteration of the form-group loop: the control of `item` and a line break. */
  method AppendFormControl(ts: string, item: FieldDefinition) returns (r: string)
    ensures r == ts + ControlEntry(item) + "\n"
  {
    hide IsNumber, IsBoolean;
    r := ts + ControlStart(item.field);
    if IsNumber(item) {
      r := r + "0";
    } else if IsBoolean(item) {
      r := r + "true";
    } else {
      r := r + "''";
    }
    r := AppendIf(r, item.notNull, RequiredValidator);
    r := r + "],\n";
    ControlRegroup(ts, ControlStart(item.field), InitialValue(item), Optional(item.notNull, RequiredValidator));
  }

  lemma ControlRegroup(ts: string, start: string, init: string, required: string)
    ensures ts + start + init + required + "],\n" == ts + (start + init + required + "],") + "\n"
  {
  }

  /** The form-group loop: one control line per field, in input order. */
  method AppendFormControls(ts: string, fields: seq<FieldDefinition>) returns (r: string)
    ensures r == ts + FormControls(fields)
  {
    hide IsNumber, IsBoolean;
    r := ts;
    for i := 0 to |fields|
      invariant r == ts + FormControls(fields[..i])
    {
      MapTextSnoc(fields, ControlEntry, i);
      TerminatedAfter(ts, MapText(fields[..i], ControlEntry), ControlEntry(fields[i]), "\n");
      r := AppendFormControl(r, fields[i]);
    }
    assert fields[..|fields|] == fields;
  }

  function EditTsOpening(camelDefault: string, camelName: string, dashName: string): string {
    "import { Component } from '@angular/core';\n"
      + "import { ActivatedRoute, Router } from '@angular/router';\n"
      + "import { filter } from 'rxjs/operators';\n"
      + "import { FormBuilder, FormGroup, Validators } from '@angular/forms';\n"
      + "import { AlertService } from '../../shared/alert/alert.service';\n"
      + "import { " + camelDefault + "Dto } from '../../api';\n"
      + "import { " + camelDefault + "Service } from '../" + dashName + ".service';\n"
      + "\n"
      + "@Component({\n"
      + "  selector: 'app-edit',\n"
      + "  templateUrl: './edit.component.html',\n"
      + "  styleUrls: ['./edit.component.scss'],\n"
      + "})\n"
      + "export class EditComponent {\n"
      + "  form: FormGroup;\n"
      + "\n"
      + "  item: " + camelDefault + "Dto | undefined;\n"
      + "\n"
      + "  constructor(\n"
      + "    private " + camelName + "Service: " + camelDefault + "Service,\n"
      + "    private route: ActivatedRoute,\n"
      + "    private router: Router,\n"
      + "    private fb: FormBuilder,\n"
      + "    private alert: AlertService,\n"
      + "  ) {\n"
      + "    this.form = this.fb.group({\n"
  }

  function EditTsClosing(camelName: string, tblName: string): string {
    "    });\n"
      + "    this.route.params\n"
      + "      .pipe(filter((params) => params.id))\n"
      + "      .subscribe((params) => {\n"
      + "        if (params.id.toString() === '0') { return; }\n"
      + "        this." + camelName + "Service.view(params.id).subscribe(\n"
      + "          (item) => {\n"
      + "            this.item = item;\n"
      + "            this.form.patchValue(item);\n"
      + "          },\n"
      + "        );\n"
      + "      });\n"
      + "  }\n"
      + "\n"
      + "  save() {\n"
      + "    if (this.form.invalid) {\n"
      + "      Object.keys(this.form.controls).forEach((field) => {\n"
      + "        const control = this.form.get(field);\n"
      + "        control?.markAsTouched({ onlySelf: true });\n"
      + "      });\n"
      + "      this.alert.error('There is error on form.');\n"
      + "      return;\n"
      + "    }\n"
      + "    this." + camelName + "Service.save(this.form.value).subscribe(\n"
      + "      () => {\n"
      + "        this.router.navigate(['/" + tblName + "/list']).then();\n"
      + "      },\n"
      + "      (error) => {\n"
      + "        this.alert.error(error.error.message);\n"
      + "      },\n"
      + "    );\n"
      + "  }\n"
      + "\n"
      + "  close() {\n"
      + "    this.router.navigate(['/" + tblName + "/list']).then();\n"
      + "  }\n"
      + "}\n"
  }

  /** The edit component: the fixed opening, the form controls, the fixed closing. */
  function EditTs(camelDefault: string, camelName: string, dashName: string, tblName: string,
                  fields: seq<FieldDefinition>): string {
    EditTsOpening(camelDefault, camelName, dashName) + FormControls(fields) + EditTsClosing(camelName, tblName)
  }

  /** `generateEditTs`: the opening, the form-group loop, the closing. */
  method GenerateEditTs(camelDefault: string, camelName: string, dashName: string, tblName: string,
                        fields: seq<FieldDefinition>) returns (ts: string)
    ensures ts == EditTs(camelDefault, camelName, dashName, tblName, fields)
  {
    hide EditTsOpening, EditTsClosing;
    ts := EditTsOpening(camelDefault, camelName, dashName);
    ts := AppendFormControls(ts, fields);
    ts := ts + EditTsClosing(camelName, tblName);
  }

  /** A control carries `Validators.required` exactly when its field is NOT NULL. */
  lemma ControlRequiredIff(item: FieldDefinition)
    ensures EndsWith(ControlEntry(item), RequiredValidator + "],") <==> item.notNull
  {
    hide IsNumber, IsBoolean;
    var head := ControlStart(item.field) + InitialValue(item);
    if item.notNull {
      assert ControlEntry(item) == head + (RequiredValidator + "],");
      EndsWithConcat(head, RequiredValidator + "],");
    } else {
      assert ControlEntry(item) == head + "],";
      var v := InitialValue(item);
      assert head[|head| - 1] == v[|v| - 1];
      NotRequired(head);
    }
  }

  /** Text ending in anything but `d` before `],` does not end in the required validator. */
  lemma NotRequired(head: string)
    requires |head| > 0 && head[|head| - 1] != 'd'
    ensures !EndsWith(head + "],", RequiredValidator + "],")
  {
    var s := head + "],";
    var pat := RequiredValidator + "],";
    assert s[|s| - 3] == head[|head| - 1];
    assert |pat| <= |s| ==> s[|s| - |pat|..][|pat| - 3] == s[|s| - 3];
  }

  /** A control starts with its field's name and is required exactly when the field is NOT NULL. */
  lemma ControlFacts(item: FieldDefinition)
    ensures StartsWith(ControlEntry(item), ControlStart(item.field))
    ensures EndsWith(ControlEntry(item), RequiredValidator + "],") <==> item.notNull
    ensures '\n' !in item.field ==> '\n' !in ControlEntry(item)
  {
    hide IsNumber, IsBoolean;
    ControlRequiredIff(item);
    var rest := InitialValue(item) + Optional(item.notNull, RequiredValidator) + "],";
    StartsWithConcat(ControlStart(item.field), rest);
    EntryRegroup(ControlStart(item.field), InitialValue(item), Optional(item.notNull, RequiredValidator));
    assert '\n' !in InitialValue(item) && '\n' !in Optional(item.notNull, RequiredValidator);
    NoNewlineJoin(ControlStart(item.field), InitialValue(item), Optional(item.notNull, RequiredValidator), "],");
  }

  lemma NoNewlineJoin(a: string, b: string, c: string, d: string)
    ensures '\n' !in a && '\n' !in b && '\n' !in c && '\n' !in d ==> '\n' !in a + b + c + d
  {
  }

  lemma EntryRegroup(start: string, init: string, required: string)
    ensures start + init + required + "]," == start + (init + required + "],")
  {
  }

  /**
   * Read back line by line, the form group holds one control per field in
   * input order, each naming its field and carrying `Validators.required`
   * exactly when the field is NOT NULL.
   */
  lemma FormControlLines(fields: seq<FieldDefinition>)
    requires SingleLine(fields)
    ensures var lines := SplitChar(FormControls(fields), '\n');
      && |lines| == |fields| + 1
      && lines[|fields|] == ""
      && forall k :: 0 <= k < |fields| ==>
           && StartsWith(lines[k], ControlStart(fields[k].field))
           && (EndsWith(lines[k], RequiredValidator + "],") <==> fields[k].notNull)
  {
    var items := MapText(fields, ControlEntry);
    forall i | 0 <= i < |items|
      ensures '\n' !in items[i]
      ensures StartsWith(items[i], ControlStart(fields[i].field))
      ensures EndsWith(items[i], RequiredValidator + "],") <==> fields[i].notNull
    {
      ControlFacts(fields[i]);
    }
    TerminatedLines(items);
  }

  /** Every field has its control in the edit component. */
  lemma EditTsDeclaresEveryControl(camelDefault: string, camelName: string, dashName: string, tblName: string,
                                   fields: seq<FieldDefinition>, k: nat)
    requires k < |fields|
    ensures Contains(EditTs(camelDefault, camelName, dashName, tblName, fields), ControlEntry(fields[k]))
  {
    hide EditTsOpening, EditTsClosing;
    TerminatedContains(MapText(fields, ControlEntry), "\n", k);
    ContainsPrepend(EditTsOpening(camelDefault, camelName, dashName), FormControls(fields), ControlEntry(fields[k]));
    ContainsAppend(EditTsOpening(camelDefault, camelName, dashName) + FormControls(fields),
                   EditTsClosing(camelName, tblName), ControlEntry(fields[k]));
  }

  /**
   * The form starts a number at `0` and a boolean at `true`, as the test
   * fixtures do; a date starts at `''` where the fixtures use `0`.
   */
  lemma InitialValueVsTestData(item: FieldDefinition)
    requires UpperType(item)
    ensures IsNumber(item) || IsBoolean(item) || IsString(item) ==> InitialValue(item) == TestLib.TestData(item)
    ensures IsDate(item) ==> InitialValue(item) == "''" && TestLib.TestData(item) == "0"
  {
    TestLib.TestDataByCategory(item);
    CategoriesDisjoint(item);
  }

  // ----------------------------------------------- generateFormField

  /** The attribute that binds a widget to the control of `field`. */
  function ControlName(field: string): string {
    "formControlName=\"" + field + "\""
  }

  function DatepickerBinding(camelField: string): string {
    "[matDatepicker]=\"picker" + camelField + "\""
  }

  function Placeholder(datePlaceholder: string): string {
    "placeholder=\"" + datePlaceholder + "\""
  }

  function ToggleHead(): string {
    "\n"
      + "      <mat-form-field class=\"full-width-input\">\n"
      + "        <mat-slide-toggle "
  }

  function ToggleTail(description: string): string {
    ">TODO: " + description + "</mat-slide-toggle>\n"
      + "        <textarea matInput hidden></textarea>\n"
      + "        <mat-error></mat-error>\n"
      + "      </mat-form-field>\n"
      + "    "
  }

  function DateHead(description: string): string {
    DateStart + DateHeadRest(description)
  }

  function DateHeadRest(description: string): string {
    "      <mat-form-field class=\"full-width-input\">\n"
      + "        <mat-label>TODO: " + description + "</mat-label>\n"
      + "        <input matInput "
  }

  function DateTail(camelField: string): string {
    "/>\n"
      + "        <mat-datepicker-toggle matSuffix [for]=\"picker" + camelField + "\"></mat-datepicker-toggle>\n"
      + "        <mat-datepicker #picker" + camelField + "></mat-datepicker>\n"
      + "        <mat-error></mat-error>\n"
      + "      </mat-form-field>"
  }

  function InputHead(description: string): string {
    InputStart + InputHeadRest(description)
  }

  function InputHeadRest(description: string): string {
    "TODO: " + description + "</mat-label>\n"
      + "        <input matInput "
  }

  function InputTail(): string {
    " />\n"
      + "        <mat-error></mat-error>\n"
      + "      </mat-form-field>\n"
      + "    "
  }

  /** What an input form field starts with, up to its label. */
  const InputStart: string := "\n" + "      <mat-form-field class=\"full-width-input\">\n" + "        <mat-label>"

  /** What a date form field starts with: a line of spaces. */
  const DateStart: string := "      \n"

  /**
   * `generateFormField`: a slide toggle for a boolean, else a datepicker
   * input for a date, else a plain input; each bound to the field's control.
   */
  function FormField(item: FieldDefinition, camelField: string -> string, datePlaceholder: string): string {
    var description := Interpolate(item.description);
    if IsBoolean(item) then
      ToggleHead() + ControlName(item.field) + ToggleTail(description)
    else if IsDate(item) then
      DateHead(description) + ControlName(item.field) + " " + DatepickerBinding(camelField(item.field)) + " "
        + Placeholder(datePlaceholder) + DateTail(camelField(item.field))
    else
      InputHead(description) + ControlName(item.field) + InputTail()
  }

  /** The widget is told by how the form field starts: toggle, datepicker or input. */
  lemma FormFieldWidget(item: FieldDefinition, camelField: string -> string, datePlaceholder: string)
    ensures StartsWith(FormField(item, camelField, datePlaceholder), ToggleHead()) <==> IsBoolean(item)
    ensures StartsWith(FormField(item, camelField, datePlaceholder), DateStart) <==> !IsBoolean(item) && IsDate(item)
    ensures StartsWith(FormField(item, camelField, datePlaceholder), InputStart) <==> !IsBoolean(item) && !IsDate(item)
  {
    hide ToggleTail, DateHeadRest, DateTail, InputHeadRest, InputTail;
    var r := FormField(item, camelField, datePlaceholder);
    var description := Interpolate(item.description);
    var name := ControlName(item.field);
    if IsBoolean(item) {
      ToggleStarts(description, item.field, r);
    } else if IsDate(item) {
      var c := camelField(item.field);
      var head := DateHead(description) + name + " " + DatepickerBinding(c) + " " + Placeholder(datePlaceholder);
      StartsWithConcat(head, DateTail(c));
      StartsWithConcat(DateHead(description) + name + " " + DatepickerBinding(c) + " ", Placeholder(datePlaceholder));
      StartsWithTrans(r, head, DateHead(description) + name + " " + DatepickerBinding(c) + " ");
      StartsWithConcat(DateHead(description) + name + " " + DatepickerBinding(c), " ");
      StartsWithTrans(r, DateHead(description) + name + " " + DatepickerBinding(c) + " ",
                      DateHead(description) + name + " " + DatepickerBinding(c));
      StartsWithConcat(DateHead(description) + name + " ", DatepickerBinding(c));
      StartsWithTrans(r, DateHead(description) + name + " " + DatepickerBinding(c), DateHead(description) + name + " ");
      StartsWithConcat(DateHead(description) + name, " ");
      StartsWithTrans(r, DateHead(description) + name + " ", DateHead(description) + name);
      StartsWithConcat(DateHead(description), name);
      StartsWithTrans(r, DateHead(description) + name, DateHead(description));
      DateStarts(description, r);
    } else {
      StartsWithConcat(InputHead(description) + name, InputTail());
      StartsWithConcat(InputHead(description), name);
      StartsWithTrans(r, InputHead(description) + name, InputHead(description));
      InputStarts(description, r);
    }
  }

  lemma ToggleStarts(description: string, field: string, r: string)
    requires r == ToggleHead() + ControlName(field) + ToggleTail(description)
    ensures StartsWith(r, ToggleHead()) && !StartsWith(r, DateStart) && !StartsWith(r, InputStart)
  {
    hide ToggleTail;
    StartsWithConcat(ToggleHead(), ControlName(field) + ToggleTail(description));
    assert r == ToggleHead() + (ControlName(field) + ToggleTail(description));
    assert ToggleHead()[0] == '\n' && ToggleHead()[62] == 's';
    StartsWithExcludes(r, ToggleHead(), DateStart, 0);
    StartsWithExcludes(r, ToggleHead(), InputStart, 62);
  }

  lemma DateStarts(description: string, r: string)
    requires StartsWith(r, DateHead(description))
    ensures StartsWith(r, DateStart) && !StartsWith(r, ToggleHead()) && !StartsWith(r, InputStart)
  {
    hide DateHeadRest;
    StartsWithConcat(DateStart, DateHeadRest(description));
    StartsWithTrans(r, DateHead(description), DateStart);
    assert ToggleHead()[0] == '\n' && InputStart[0] == '\n';
    StartsWithExcludes(r, DateStart, ToggleHead(), 0);
    StartsWithExcludes(r, DateStart, InputStart, 0);
  }

  lemma InputStarts(description: string, r: string)
    requires StartsWith(r, InputHead(description))
    ensures StartsWith(r, InputStart) && !StartsWith(r, ToggleHead()) && !StartsWith(r, DateStart)
  {
    hide InputHeadRest;
    StartsWithConcat(InputStart, InputHeadRest(description));
    StartsWithTrans(r, InputHead(description), InputStart);
    assert ToggleHead()[62] == 's' && InputStart[62] == 'l';
    StartsWithExcludes(r, InputStart, ToggleHead(), 62);
    StartsWithExcludes(r, InputStart, DateStart, 0);
  }

  /** Whatever the widget, the form field is bound to the field's control. */
  lemma FormFieldBindsControl(item: FieldDefinition, camelField: string -> string, datePlaceholder: string)
    ensures Contains(FormField(item, camelField, datePlaceholder), ControlName(item.field))
  {
    hide ToggleTail, DateHeadRest, DateTail, InputHeadRest, InputTail;
    var description := Interpolate(item.description);
    var name := ControlName(item.field);
    if IsBoolean(item) {
      ContainsMiddle(ToggleHead(), name, ToggleTail(description));
    } else if IsDate(item) {
      var c := camelField(item.field);
      ContainsEnd(DateHead(description), name);
      ContainsAppend(DateHead(description) + name, " ", name);
      ContainsAppend(DateHead(description) + name + " ", DatepickerBinding(c), name);
      ContainsAppend(DateHead(description) + name + " " + DatepickerBinding(c), " ", name);
      ContainsAppend(DateHead(description) + name + " " + DatepickerBinding(c) + " ", Placeholder(datePlaceholder), name);
      ContainsAppend(DateHead(description) + name + " " + DatepickerBinding(c) + " " + Placeholder(datePlaceholder),
                     DateTail(c), name);
    } else {
      ContainsMiddle(InputHead(description), name, InputTail());
    }
  }

  /** A date that is not a boolean gets a datepicker named after the field, with the placeholder. */
  lemma DateFieldPicker(item: FieldDefinition, camelField: string -> string, datePlaceholder: string)
    requires !IsBoolean(item) && IsDate(item)
    ensures Contains(FormField(item, camelField, datePlaceholder), DatepickerBinding(camelField(item.field)))
    ensures Contains(FormField(item, camelField, datePlaceholder), Placeholder(datePlaceholder))
  {
    hide ToggleTail, DateHeadRest, DateTail, InputHeadRest, InputTail;
    var a := DateHead(Interpolate(item.description)) + ControlName(item.field) + " ";
    var picker := DatepickerBinding(camelField(item.field));
    var ph := Placeholder(datePlaceholder);
    var tail := DateTail(camelField(item.field));
    ContainsEnd(a, picker);
    ContainsAppend(a + picker, " ", picker);
    ContainsAppend(a + picker + " ", ph, picker);
    ContainsAppend(a + picker + " " + ph, tail, picker);
    ContainsEnd(a + picker + " ", ph);
    ContainsAppend(a + picker + " " + ph, tail, ph);
  }

  // ----------------------------------------------- edit.component.html

  function FormFieldOf(camelField: string -> string, datePlaceholder: string): FieldDefinition -> string {
    item => FormField(item, camelField, datePlaceholder)
  }

  function EditHtmlOpening(): string {
    "<mat-card>\n"
      + "  <mat-card-header>\n"
      + "    <h2 *ngIf=\"item\">Edit</h2>\n"
      + "    <h2 *ngIf=\"!item\">Add</h2>\n"
      + "  </mat-card-header>\n"
      + "  <mat-card-content>\n"
      + "    <form [formGroup]=\"form\">\n"
  }

  function EditHtmlClosing(): string {
    " </form>\n"
      + "  </mat-card-content>\n"
      + "\n"
      + "  <mat-card-footer>\n"
      + "    <button mat-button (click)=\"close()\"><mat-icon>close</mat-icon>Close</button>\n"
      + "    <button mat-button (click)=\"save()\"><mat-icon>save</mat-icon>Save</button>\n"
      + "  </mat-card-footer>\n"
      + "\n"
      + "</mat-card>\n"
  }

  /** The edit template: the form with one form field per field, in input order. */
  function EditHtml(fields: seq<FieldDefinition>, camelField: string -> string, datePlaceholder: string): string {
    EditHtmlOpening() + Concat(MapText(fields, FormFieldOf(camelField, datePlaceholder))) + EditHtmlClosing()
  }

  /** `generateEditHtml`: the opening, one form field per field, the closing. */
  method GenerateEditHtml(fields: seq<FieldDefinition>, camelField: string -> string, datePlaceholder: string)
    returns (html: string)
    ensures html == EditHtml(fields, camelField, datePlaceholder)
  {
    hide EditHtmlOpening, EditHtmlClosing, ToggleHead, ToggleTail, DateHeadRest, DateTail, InputHeadRest, InputTail;
    var formField := FormFieldOf(camelField, datePlaceholder);
    html := EditHtmlOpening();
    for i := 0 to |fields|
      invariant html == EditHtmlOpening() + Concat(MapText(fields[..i], formField))
    {
      MapTextSnoc(fields, formField, i);
      ConcatAfter(EditHtmlOpening(), MapText(fields[..i], formField), formField(fields[i]));
      html := html + FormField(fields[i], camelField, datePlaceholder);
    }
    assert fields[..|fields|] == fields;
    html := html + EditHtmlClosing();
  }

  /** Every field's control is bound by a form field of the edit template. */
  lemma EditHtmlBindsEveryField(fields: seq<FieldDefinition>, camelField: string -> string, datePlaceholder: string,
                                k: nat)
    requires k < |fields|
    ensures Contains(EditHtml(fields, camelField, datePlaceholder), ControlName(fields[k].field))
  {
    hide EditHtmlOpening, EditHtmlClosing, ToggleHead, ToggleTail, DateHeadRest, DateTail, InputHeadRest, InputTail;
    var items := MapText(fields, FormFieldOf(camelField, datePlaceholder));
    var name := ControlName(fields[k].field);
    FormFieldBindsControl(fields[k], camelField, datePlaceholder);
    ConcatContains(items, k);
    ContainsTrans(Concat(items), items[k], name);
    ContainsPrepend(EditHtmlOpening(), Concat(items), name);
    ContainsAppend(EditHtmlOpening() + Concat(items), EditHtmlClosing(), name);
  }

  // ------------------------------------------------- list.component.ts

  /** One element of `displayedColumns`: the field name in quotes. */
  function QuotedName(item: FieldDefinition): string {
    "'" + item.field + "'"
  }

  const ActionsColumn: string := " 'actions'"

  /** The field elements of `displayedColumns`, each followed by `", "`. */
  function DisplayedColumns(fields: seq<FieldDefinition>): string {
    Terminated(MapText(fields, QuotedName), ", ")
  }

  /**
   * `displayedColumns` lists every field's name in input order and then
   * `'actions'`, comma-separated.
   */
  lemma DisplayedColumnsList(fields: seq<FieldDefinition>)
    ensures DisplayedColumns(fields) + ActionsColumn == Joined(MapText(fields, QuotedName) + [ActionsColumn], ", ")
  {
    TerminatedThenLast(MapText(fields, QuotedName), ", ", ActionsColumn);
  }

  /** The name of the search input, from the second field. */
  function SearchInput(search: string): string {
    "search" + Capitalize(search) + "Input"
  }

  function ViewChildQuery(search: string): string {
    "@ViewChild('" + SearchInput(search) + "')"
  }

  /** The list filter's field: the second field. */
  function FilterField(search: string): string {
    "field: '" + search + "',"
  }

  /** The delete call: the row's first field. */
  function DeleteCall(key: string): string {
    "delete(parseInt(row." + key + "))"
  }

  function ListTsOpening(camelDefault: string, dashName: string): string {
    "import {\n"
      + "  AfterViewInit, Component, ElementRef, OnInit, ViewChild,\n"
      + "} from '@angular/core';\n"
      + "import { MatSort } from '@angular/material/sort';\n"
      + "import { MatPaginator } from '@angular/material/paginator';\n"
      + "import { Router } from '@angular/router';\n"
      + "import { MatDialog } from '@angular/material/dialog';\n"
      + "import { fromEvent, merge } from 'rxjs';\n"
      + "import { debounceTime, distinctUntilChanged, tap } from 'rxjs/operators';\n"
      + "import { DeleteDialogComponent } from '../../shared/delete-dialog/delete-dialog.component';\n"
      + "import { AlertService } from '../../shared/alert/alert.service';\n"
      + "import { " + camelDefault + "Service } from '../" + dashName + ".service';\n"
      + "import { " + camelDefault + "Dto } from '../../api';\n"
      + "import { " + camelDefault + "Datasource } from '../" + dashName + ".datasource';\n"
      + "\n"
      + "/**\n"
      + " * Server side pagination list based on\n"
      + " * https://github.com/angular-university/angular-material-course/tree/2-data-table-finished\n"
      + " * https://blog.angular-university.io/angular-material-data-table/\n"
      + " */\n"
      + "@Component({\n"
      + "  selector: 'app-list',\n"
      + "  templateUrl: './list.component.html',\n"
      + "  styleUrls: ['./list.component.scss'],\n"
      + "})\n"
      + "export class ListComponent implements OnInit, AfterViewInit {\n"
      + "  list: " + camelDefault + "Dto[] = [];\n"
      + "\n"
      + "  // TODO: Remove unnecessary columns, (leave actions)\n"
      + "  displayedColumns = ["
  }

  function ListTsA(camelDefault: string): string {
    ActionsColumn + "];\n"
      + "\n"
      + "  // @ts-ignore\n"
      + "  public listTable: " + camelDefault + "Datasource;\n"
      + "\n"
      + "  @ViewChild(MatSort, { static: false }) sort!: MatSort;\n"
      + "\n"
      + "  @ViewChild(MatPaginator) paginator!: MatPaginator;\n"
      + "\n"
      + "  // @ts-ignore\n"
      + "  "
  }

  function ListTsB(camelDefault: string, camelName: string, search: string): string {
    " " + SearchInput(search) + ": ElementRef;\n"
      + "\n"
      + "  dataSize: number = 0;\n"
      + "\n"
      + "  constructor(\n"
      + "    private " + camelName + "Service: " + camelDefault + "Service,\n"
      + "    private router: Router,\n"
      + "    public dialog: MatDialog,\n"
      + "    private alertService: AlertService,\n"
      + "  ) { }\n"
      + "\n"
      + "  ngOnInit(): void {\n"
      + "    this.listTable = new " + camelDefault + "Datasource(this." + camelName + "Service, alertService);\n"
      + "    this.listTable.cntSubject.subscribe(\n"
      + "      (cnt) => { this.dataSize = cnt; },\n"
      + "    );\n"
      + "    this.listTable.load({\n"
      + "      filter: [],\n"
      + "      sort: [],\n"
      + "      page_size: 25,\n"
      + "      sort_direction: 'asc',\n"
      + "      page_index: 0,\n"
      + "    });\n"
      + "  }\n"
      + "\n"
      + "  ngAfterViewInit(): void {\n"
      + "    this.sort.sortChange.subscribe(() => { this.paginator.pageIndex = 0; });\n"
      + "\n"
      + "    merge(\n"
      + "      fromEvent(this." + SearchInput(search) + ".nativeElement, 'keyup'),\n"
      + "    ).pipe(\n"
      + "      debounceTime(150),\n"
      + "      distinctUntilChanged(),\n"
      + "      tap(() => {\n"
      + "        this.paginator.pageIndex = 0;\n"
      + "        this.load();\n"
      + "      }),\n"
      + "    ).subscribe();\n"
      + "\n"
      + "    merge(\n"
      + "      this.sort.sortChange,\n"
      + "      this.paginator.page,\n"
      + "    ).pipe(\n"
      + "      tap(() => this.load()),\n"
      + "    ).subscribe();\n"
      + "  }\n"
      + "\n"
      + "  load() {\n"
      + "    // Check if elements are initialized\n"
      + "    if ((!this." + SearchInput(search) + ") || (!this.sort)) {\n"
      + "      return;\n"
      + "    }\n"
      + "    const filter = [];\n"
      + "    if (this." + SearchInput(search) + "?.nativeElement.value) {\n"
      + "      filter.push({\n"
      + "        "
  }

  function ListTsC(camelDefault: string, camelName: string, tblName: string, search: string): string {
    "\n"
      + "        value: `${this." + SearchInput(search) + "?.nativeElement.value}%`,\n"
      + "      });\n"
      + "    }\n"
      + "    const sort = [];\n"
      + "    if (this.sort.active) {\n"
      + "      sort.push(this.sort.active);\n"
      + "    }\n"
      + "\n"
      + "    this.listTable?.load({\n"
      + "      filter,\n"
      + "      sort,\n"
      + "      page_index: this.paginator?.pageIndex,\n"
      + "      page_size: this.paginator?.pageSize,\n"
      + "      sort_direction: this.sort?.direction,\n"
      + "    });\n"
      + "  }\n"
      + "\n"
      + "  edit(id: number) {\n"
      + "    this.router.navigate([`/" + tblName + "/edit/${id}`]).then();\n"
      + "  }\n"
      + "\n"
      + "  deleteDlg(row: " + camelDefault + "Dto) {\n"
      + "    const dlg = this.dialog.open(DeleteDialogComponent, { data: { title: `${row." + search + "}` } });\n"
      + "    dlg.afterClosed().subscribe((result) => {\n"
      + "      if (!result) { return; }\n"
      + "      this." + camelName + "Service."
  }

  function ListTsD(): string {
    ".subscribe(\n"
      + "        () => {\n"
      + "          this.alertService.success('Item deleted');\n"
      + "          this.load();\n"
      + "        },\n"
      + "        (error) => {\n"
      + "          this.alertService.error(error.error.message);\n"
      + "        },\n"
      + "      );\n"
      + "    });\n"
      + "  }\n"
      + "}\n"
      + "  "
  }

  /** Everything after the field elements of `displayedColumns`. */
  function ListTsRest(camelDefault: string, camelName: string, tblName: string, key: string, search: string): string {
    ListTsA(camelDefault) + ViewChildQuery(search) + ListTsB(camelDefault, camelName, search) + FilterField(search)
      + ListTsC(camelDefault, camelName, tblName, search) + DeleteCall(key) + ListTsD()
  }

  /** The list component: searches on the second field, deletes by the first. */
  function ListTs(camelDefault: string, camelName: string, dashName: string, tblName: string,
                  fields: seq<FieldDefinition>): string
    requires |fields| >= 2
  {
    ListTsOpening(camelDefault, dashName) + DisplayedColumns(fields)
      + ListTsRest(camelDefault, camelName, tblName, fields[0].field, fields[1].field)
  }

  /** `generateListTs`: the opening, one `displayedColumns` element per field, the rest. */
  method GenerateListTs(camelDefault: string, camelName: string, dashName: string, tblName: string,
                        fields: seq<FieldDefinition>) returns (ts: string)
    requires |fields| >= 2
    ensures ts == ListTs(camelDefault, camelName, dashName, tblName, fields)
  {
    hide ListTsOpening, ListTsA, ListTsB, ListTsC, ListTsD;
    ts := ListTsOpening(camelDefault, dashName);
    ts := AppendEach(ts, fields, QuotedName, ", ");
    ts := ts + ListTsRest(camelDefault, camelName, tblName, fields[0].field, fields[1].field);
  }

  /**
   * The list component queries the search input of the second field and
   * filters on the second field; it deletes a row by its first field.
   */
  lemma ListTsKeys(camelDefault: string, camelName: string, dashName: string, tblName: string,
                   fields: seq<FieldDefinition>)
    requires |fields| >= 2
    ensures Contains(ListTs(camelDefault, camelName, dashName, tblName, fields), ViewChildQuery(fields[1].field))
    ensures Contains(ListTs(camelDefault, camelName, dashName, tblName, fields), FilterField(fields[1].field))
    ensures Contains(ListTs(camelDefault, camelName, dashName, tblName, fields), DeleteCall(fields[0].field))
  {
    hide ListTsOpening, ListTsA, ListTsB, ListTsC, ListTsD;
    var key := fields[0].field;
    var search := fields[1].field;
    var head := ListTsOpening(camelDefault, dashName) + DisplayedColumns(fields);
    var rest := ListTsRest(camelDefault, camelName, tblName, key, search);
    RestKeys(ListTsA(camelDefault), ViewChildQuery(search), ListTsB(camelDefault, camelName, search),
             FilterField(search), ListTsC(camelDefault, camelName, tblName, search), DeleteCall(key), ListTsD());
    ContainsPrepend(head, rest, ViewChildQuery(search));
    ContainsPrepend(head, rest, FilterField(search));
    ContainsPrepend(head, rest, DeleteCall(key));
  }

  lemma RestKeys(a: string, query: string, b: string, filter: string, c: string, delete: string, d: string)
    ensures Contains(a + query + b + filter + c + delete + d, query)
    ensures Contains(a + query + b + filter + c + delete + d, filter)
    ensures Contains(a + query + b + filter + c + delete + d, delete)
  {
    ContainsEnd(a, query);
    ContainsAppend(a + query, b, query);
    ContainsAppend(a + query + b, filter, query);
    ContainsAppend(a + query + b + filter, c, query);
    ContainsAppend(a + query + b + filter + c, delete, query);
    ContainsAppend(a + query + b + filter + c + delete, d, query);
    ContainsEnd(a + query + b, filter);
    ContainsAppend(a + query + b + filter, c, filter);
    ContainsAppend(a + query + b + filter + c, delete, filter);
    ContainsAppend(a + query + b + filter + c + delete, d, filter);
    ContainsEnd(a + query + b + filter + c, delete);
    ContainsAppend(a + query + b + filter + c + delete, d, delete);
  }

  // ----------------------------------------------- list.component.html

  /** The attribute that defines the table column `name`. */
  function ColumnName(name: string): string {
    "matColumnDef=\"" + name + "\""
  }

  /** The click handler that edits the row with the given key. */
  function EditClick(key: string): string {
    "(click)=\"edit(item." + key + ")\""
  }

  /** The search input's template reference, from the second field. */
  function SearchAnchor(search: string): string {
    "#" + SearchInput(search)
  }

  function ListHtmlTop(): string {
    "<mat-card class=\"mat-elevation-z4\">\n"
      + "  <mat-card-content>\n"
      + "    <div class=\"flex-container\">\n"
      + "      <div>\n"
      + "        List\n"
      + "      </div>\n"
      + "      <div>\n"
      + "        <button mat-raised-button (click)=\"edit(0)\" class=\"header-item\">\n"
      + "          <mat-icon>add</mat-icon>\n"
      + "          Add\n"
      + "        </button>\n"
      + "        <mat-form-field class=\"header-item\">\n"
      + "          <mat-label>Search</mat-label>\n"
      + "          <input matInput placeholder=\"Search field\" "
  }

  function ListHtmlTableStart(): string {
    ">\n"
      + "        </mat-form-field>\n"
      + "      </div>\n"
      + "    </div>\n"
      + "  </mat-card-content>\n"
      + "</mat-card>\n"
      + "\n"
      + "<br/>\n"
      + "<mat-card  class=\"mat-elevation-z4\">\n"
      + "  <mat-card-content>\n"
      + "    <div class=\"spinner-container\" *ngIf=\"listTable.loading$ | async\">\n"
      + "      <mat-spinner></mat-spinner>\n"
      + "    </div>\n"
      + "\n"
      + "    <table mat-table matSort [dataSource]=\"listTable\">\n"
      + "\n"
  }

  function ColumnHead(field: string): string {
    "      <ng-container " + ColumnName(field) + ">\n" + ColumnHeadRest(field)
  }

  function ColumnHeadRest(field: string): string {
    "        <th mat-header-cell mat-sort-header *matHeaderCellDef>\n"
      + "          TODO: " + field + "\n"
      + "        </th>\n"
      + "        <td\n"
      + "          "
  }

  function ColumnTail(field: string): string {
    " \n"
      + "          mat-cell \n"
      + "          *matCellDef=\"let item\" class=\"column-dt\">\n"
      + "          {{item." + field + "}}\n"
      + "        </td>\n"
      + "      </ng-container>"
  }

  /** The column of a field: its header names the field, and a click on a cell edits by `key`. */
  function ColumnDef(item: FieldDefinition, key: string): string {
    ColumnHead(item.field) + EditClick(key) + ColumnTail(item.field)
  }

  function ColumnDefOf(key: string): FieldDefinition -> string {
    item => ColumnDef(item, key)
  }

  function ActionsHead(): string {
    "      <ng-container " + ColumnName("actions") + " stickyEnd>\n" + ActionsHeadRest()
  }

  function ActionsHeadRest(): string {
    "        <th mat-header-cell *matHeaderCellDef></th>\n"
      + "        <td mat-cell *matCellDef=\"let item\" class=\"column-actions\">\n"
      + "          <button mat-icon-button "
  }

  function ActionsTail(): string {
    "><mat-icon>edit</mat-icon></button>\n"
      + "          <button mat-icon-button (click)=\"deleteDlg(item)\"><mat-icon>delete</mat-icon></button>\n"
      + "        </td>\n"
      + "      </ng-container>\n"
      + "\n"
      + "      <tr mat-header-row *matHeaderRowDef=\"displayedColumns\"></tr>\n"
      + "\n"
      + "      <tr\n"
      + "        mat-row\n"
      + "        *matRowDef=\"let row; columns: displayedColumns;\"\n"
      + "        class=\"table-row\"></tr>\n"
      + "\n"
      + "    </table>\n"
      + "\n"
      + "    <mat-paginator\n"
      + "      [pageSizeOptions]=\"[25, 50]\"\n"
      + "      [pageSize]=\"25\"\n"
      + "      [length]=\"dataSize\"\n"
      + "      showFirstLastButtons\n"
      + "      aria-label=\"Choose page\">\n"
      + "    </mat-paginator>\n"
      + "\n"
      + "  </mat-card-content>\n"
      + "</mat-card>\n"
  }

  /** Everything before the columns: the search box of `search` and the table's start. */
  function ListHtmlHead(search: string): string {
    ListHtmlTop() + SearchAnchor(search) + ListHtmlTableStart()
  }

  /** The field columns, each followed by a blank line. */
  function Columns(fields: seq<FieldDefinition>, key: string): string {
    Terminated(MapText(fields, ColumnDefOf(key)), "\n\n")
  }

  /** The actions column, whose edit button edits by `key`, and the rest of the template. */
  function ListHtmlClosing(key: string): string {
    ActionsHead() + EditClick(key) + ActionsTail()
  }

  /** The list template: the search box, one column per field, the actions column. */
  function ListHtml(fields: seq<FieldDefinition>): string
    requires |fields| >= 2
  {
    hide ListHtmlTop, ListHtmlTableStart, ColumnHeadRest, ColumnTail, ActionsHeadRest, ActionsTail;
    ListHtmlHead(fields[1].field) + Columns(fields, fields[0].field) + ListHtmlClosing(fields[0].field)
  }

  /** `generateListHtml`: the head, one column per field, each followed by a blank line, the actions. */
  method GenerateListHtml(fields: seq<FieldDefinition>) returns (html: string)
    requires |fields| >= 2
    ensures html == ListHtml(fields)
  {
    hide ListHtmlTop, ListHtmlTableStart, ColumnHeadRest, ColumnTail, ActionsHeadRest, ActionsTail;
    html := ListHtmlHead(fields[1].field);
    html := AppendEach(html, fields, ColumnDefOf(fields[0].field), "\n\n");
    html := html + ListHtmlClosing(fields[0].field);
  }

  lemma ColumnDefParts(item: FieldDefinition, key: string)
    ensures Contains(ColumnDef(item, key), ColumnName(item.field))
    ensures StartsWith(ColumnDef(item, key), ColumnHead(item.field) + EditClick(key))
  {
    hide ColumnHeadRest, ColumnTail;
    var a := "      <ng-container " + ColumnName(item.field);
    ContainsEnd("      <ng-container ", ColumnName(item.field));
    ContainsAppend(a, ">\n" + ColumnHeadRest(item.field), ColumnName(item.field));
    assert ColumnHead(item.field) == a + (">\n" + ColumnHeadRest(item.field));
    ContainsAppend(ColumnHead(item.field), EditClick(key) + ColumnTail(item.field), ColumnName(item.field));
    assert ColumnDef(item, key) == ColumnHead(item.field) + (EditClick(key) + ColumnTail(item.field));
    StartsWithConcat(ColumnHead(item.field) + EditClick(key), ColumnTail(item.field));
  }

  /**
   * Every column of `displayedColumns` is defined in the list template,
   * the fields' and `actions`; each field's cells and the actions' edit
   * button edit the row by its first field; the search input is the second
   * field's.
   */
  lemma ListHtmlColumns(fields: seq<FieldDefinition>, k: nat)
    requires |fields| >= 2 && k < |fields|
    ensures Contains(ListHtml(fields), SearchAnchor(fields[1].field))
    ensures Contains(ListHtml(fields), ColumnName(fields[k].field))
    ensures Contains(ListHtml(fields), ColumnHead(fields[k].field) + EditClick(fields[0].field))
    ensures Contains(ListHtml(fields), ColumnName("actions"))
    ensures Contains(ListHtml(fields), ActionsHead() + EditClick(fields[0].field))
  {
    hide ListHtmlTop, ListHtmlTableStart, ColumnHeadRest, ColumnTail, ActionsHeadRest, ActionsTail;
    var key := fields[0].field;
    var search := fields[1].field;
    var items := MapText(fields, ColumnDefOf(key));
    var columns := Columns(fields, key);
    var click := ColumnHead(fields[k].field) + EditClick(key);
    ColumnDefParts(fields[k], key);
    StartsWithContains(ColumnDef(fields[k], key), click);
    TerminatedContains(items, "\n\n", k);
    ContainsTrans(columns, items[k], ColumnName(fields[k].field));
    ContainsTrans(columns, items[k], click);
    ContainsMiddle(ListHtmlTop(), SearchAnchor(search), ListHtmlTableStart());
    StartsWithConcat(ActionsHead() + EditClick(key), ActionsTail());
    StartsWithContains(ListHtmlClosing(key), ActionsHead() + EditClick(key));
    ActionsDefined(key);
    ContainsTrans(ListHtmlClosing(key), ActionsHead() + EditClick(key), ColumnName("actions"));
    ListHtmlPieces(ListHtmlHead(search), columns, ListHtmlClosing(key), SearchAnchor(search),
                   ColumnName(fields[k].field), click, ColumnName("actions"), ActionsHead() + EditClick(key));
  }

  lemma ActionsDefined(key: string)
    ensures Contains(ActionsHead() + EditClick(key), ColumnName("actions"))
  {
    hide ActionsHeadRest;
    var a := "      <ng-container " + ColumnName("actions");
    ContainsEnd("      <ng-container ", ColumnName("actions"));
    ContainsAppend(a, " stickyEnd>\n" + ActionsHeadRest(), ColumnName("actions"));
    assert ActionsHead() == a + (" stickyEnd>\n" + ActionsHeadRest());
    ContainsAppend(ActionsHead(), EditClick(key), ColumnName("actions"));
  }

  lemma ListHtmlPieces(head: string, columns: string, closing: string,
                       anchor: string, colName: string, colClick: string, actionsName: string, actions: string)
    requires Contains(head, anchor)
    requires Contains(columns, colName) && Contains(columns, colClick)
    requires Contains(closing, actionsName) && Contains(closing, actions)
    ensures Contains(head + columns + closing, anchor)
    ensures Contains(head + columns + closing, colName)
    ensures Contains(head + columns + closing, colClick)
    ensures Contains(head + columns + closing, actionsName)
    ensures Contains(head + columns + closing, actions)
  {
    ContainsAppend(head, columns, anchor);
    ContainsAppend(head + columns, closing, anchor);
    ContainsPrepend(head, columns, colName);
    ContainsAppend(head + columns, closing, colName);
    ContainsPrepend(head, columns, colClick);
    ContainsAppend(head + columns, closing, colClick);
    ContainsPrepend(head + columns, closing, actionsName);
    ContainsPrepend(head + columns, closing, actions);
  }

  // ------------------------------------------- generateAngularModule

  const EditTsPath: string := "dist/www/edit/edit.component.ts"
  const EditHtmlPath: string := "dist/www/edit/edit.component.html"
  const ListHtmlPath: string := "dist/www/list/list.component.html"
  const ListTsPath: string := "dist/www/list/list.component.ts"

  /** No two component files share a path, whatever their texts. */
  lemma ComponentPathsDistinct(editTs: string, editHtml: string, listHtml: string, listTs: string)
    ensures DistinctPaths([OutputFile(EditTsPath, editTs), OutputFile(EditHtmlPath, editHtml)])
    ensures DistinctPaths([OutputFile(EditTsPath, editTs), OutputFile(EditHtmlPath, editHtml)]
                          + [OutputFile(ListHtmlPath, listHtml), OutputFile(ListTsPath, listTs)])
  {
    assert EditTsPath[9] == 'e' && ListTsPath[9] == 'l';
    assert EditHtmlPath[9] == 'e' && ListHtmlPath[9] == 'l';
    assert |EditTsPath| == 31 && |EditHtmlPath| == 33 && |ListHtmlPath| == 33 && |ListTsPath| == 31;
  }

  /**
   * The field-dependent part of `generateAngularModule`: the edit component
   * and its template, then the list template and the list component. With
   * fewer than two fields the list template's `fieldArray[1]` throws
   * after the edit files are written.
   */
  method GenerateAngularModule(tblName: string, fields: seq<FieldDefinition>, camelDefault: string,
                               camelName: string, dashName: string, camelField: string -> string,
                               datePlaceholder: string)
    returns (written: seq<OutputFile>, crashed: bool)
    ensures crashed <==> |fields| < 2
    // The template texts play no part in this clause's well-formedness, so they are hidden while it is checked.
    ensures (hide EditTsOpening, EditTsClosing, EditHtmlOpening, EditHtmlClosing, ToggleHead, ToggleTail, DateHeadRest,
                  DateTail, InputHeadRest, InputTail, ListTsOpening, ListTsA, ListTsB, ListTsC, ListTsD, ListHtmlTop,
                  ListHtmlTableStart, ColumnHeadRest, ColumnTail, ActionsHeadRest, ActionsTail;
             written == [OutputFile(EditTsPath, EditTs(camelDefault, camelName, dashName, tblName, fields)),
                         OutputFile(EditHtmlPath, EditHtml(fields, camelField, datePlaceholder))]
               + if crashed then [] else [OutputFile(ListHtmlPath, ListHtml(fields)),
                                          OutputFile(ListTsPath, ListTs(camelDefault, camelName, dashName, tblName, fields))])
    ensures DistinctPaths(written)
  {
    hide EditTsOpening, EditTsClosing, EditHtmlOpening, EditHtmlClosing, ToggleHead, ToggleTail, DateHeadRest, DateTail;
    hide InputHeadRest, InputTail, ListTsOpening, ListTsA, ListTsB, ListTsC, ListTsD, ListHtmlTop, ListHtmlTableStart;
    hide ColumnHeadRest, ColumnTail, ActionsHeadRest, ActionsTail;
    var editTs := GenerateEditTs(camelDefault, camelName, dashName, tblName, fields);
    var editHtml := GenerateEditHtml(fields, camelField, datePlaceholder);
    written := [OutputFile(EditTsPath, editTs), OutputFile(EditHtmlPath, editHtml)];
    if |fields| < 2 {
      crashed := true;
      ComponentPathsDistinct(editTs, editHtml, "", "");
      return;
    }
    var listHtml := GenerateListHtml(fields);
    var listTs := GenerateListTs(camelDefault, camelName, dashName, tblName, fields);
    ComponentPathsDistinct(editTs, editHtml, listHtml, listTs);
    written := written + [OutputFile(ListHtmlPath, listHtml), OutputFile(ListTsPath, listTs)];
    crashed := false;
  }

  // ------------------------------------------------- across the emitters

  /**
   * A column declared NOT NULL comes out required on both sides: the DTO
   * property gets `@IsNotEmpty()` and the form control
   * `Validators.required`; a column without it gets neither.
   */
  lemma NotNullRoundTrip(line: string)
    requires Scanner.Classify(line).FieldLine?
    ensures ApiLib.NotEmptyDecorator in ApiLib.Decorators(Scanner.Classify(line).def)
            <==> Contains(Upper(line), "NOT NULL")
    ensures EndsWith(ControlEntry(Scanner.Classify(line).def), RequiredValidator + "],")
            <==> Contains(Upper(line), "NOT NULL")
  {
    var item := Scanner.Classify(line).def;
    Scanner.ClassifyField(line);
    ContainsIff(Upper(line), "NOT NULL");
    ApiLib.DecoratorsIff(item);
    ControlRequiredIff(item);
  }
}
