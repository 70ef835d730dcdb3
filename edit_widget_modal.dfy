/**
 * The title-edit dialog of nocode-dashboard/src/components/EditWidgetModal.tsx.
 * Its one state cell, the title being edited, is a field next to the `widget`
 * prop; the callbacks it fires (`onSave`, `onClose`) are returned as a list of
 * calls, in order.
 */
module EditWidgetModal {
  import opened Wrappers
  import opened WidgetTypes
  import opened JsText

  /** A call the dialog makes to its parent. */
  datatype Callback = OnSave(widgetId: string, newTitle: string) | OnClose

  /** The title the reset effect installs for a `widget` prop: its title, or '' when there is none. */
  function TitleFor(widget: Option<DashboardWidget>): (t: string)
    ensures widget.Some? ==> t == widget.value.title
    ensures widget.None? ==> t == ""
  {
    if widget.Some? then widget.value.title else ""
  }

  /**
   * The calls `handleSave` makes: `onSave` once with the widget's id and the
   * trimmed title when there is a widget and the title is not blank, otherwise
   * none. A title that goes out is non-empty and has no white space at its ends.
   */
  function SaveCalls(widget: Option<DashboardWidget>, title: string): (calls: seq<Callback>)
    ensures |calls| <= 1
    ensures calls == [] <==> widget.None? || AllWhitespace(title)
    ensures calls != [] ==> calls[0] == OnSave(widget.value.id, Trim(title))
    ensures calls != [] ==>
              && calls[0].newTitle != ""
              && !IsWhitespace(calls[0].newTitle[0])
              && !IsWhitespace(calls[0].newTitle[|calls[0].newTitle| - 1])
  {
    if widget.Some? && Trim(title) != "" then [OnSave(widget.value.id, Trim(title))] else []
  }

  /** A blank title (empty or only white space) never reaches `onSave`, whatever the widget. */
  lemma BlankTitleNeverSaves(widget: Option<DashboardWidget>, title: string)
    requires AllWhitespace(title)
    ensures SaveCalls(widget, title) == []
  {
  }

  /** Saving what was just saved sends the same title again: the forwarded title is already trimmed. */
  lemma SavedTitleIsStable(widget: Option<DashboardWidget>, title: string)
    requires SaveCalls(widget, title) != []
    ensures SaveCalls(widget, SaveCalls(widget, title)[0].newTitle) == SaveCalls(widget, title)
  {
    TrimIdempotent(title);
  }

  class Modal {
    /** The `widget` prop. */
    var widget: Option<DashboardWidget>
    /** The `title` state cell bound to the text field. */
    var title: string

    /** Mounting with a `widget` prop: the title starts at '' and the reset effect then installs the widget's title. */
    constructor (widget: Option<DashboardWidget>)
      ensures this.widget == widget
      ensures title == TitleFor(widget)
    {
      this.widget := widget;
      title := "";
      title := TitleFor(widget);
    }

    /** The reset effect, run when the `widget` prop changes: the edit is discarded. */
    method WidgetChanged(widget: Option<DashboardWidget>)
      modifies this
      ensures this.widget == widget
      ensures title == TitleFor(widget)
    {
      this.widget := widget;
      title := TitleFor(widget);
    }

    /** The text field's `onChange`: the title becomes whatever was typed; the widget is unchanged. */
    method Change(text: string)
      modifies this`title
      ensures title == text
    {
      title := text;
    }

    /** `handleSave`, the Save button: the calls made to the parent. */
    method HandleSave() returns (calls: seq<Callback>)
      ensures calls == SaveCalls(widget, title)
    {
      calls := [];
      if widget.Some? && Trim(title) != "" {
        calls := [OnSave(widget.value.id, Trim(title))];
      }
    }

    /** `onKeyPress`: Enter saves by the same rule as the Save button; any other key makes no call. */
    method KeyPress(key: string) returns (calls: seq<Callback>)
      ensures key == "Enter" ==> calls == SaveCalls(widget, title)
      ensures key != "Enter" ==> calls == []
    {
      calls := [];
      if key == "Enter" {
        calls := HandleSave();
      }
    }

    /** `handleClose`, the Cancel button and the dialog's own close: `onClose` once and never `onSave`. */
    method HandleClose() returns (calls: seq<Callback>)
      ensures calls == [OnClose]
      ensures forall k :: 0 <= k < |calls| ==> !calls[k].OnSave?
    {
      calls := [OnClose];
    }
  }
}
