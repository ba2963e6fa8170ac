/** The application store of src/stores/AppStore.ts: one record of reactive
    cells (loaded data, editor contents, generation and error flags) that
    setters overwrite in place. Each signal is a plain field here. */
module AppStore {
  import opened Js

  /** Which editor tab is shown. */
  datatype EditorType = HtmlEditor | CssEditor | JavascriptEditor | CombinedEditor | DataEditor

  /** The three code kinds `updateCode` accepts. */
  datatype CodeKind = HtmlCode | CssCode | JavascriptCode

  /** What `getCodeContent` hands out. */
  datatype CodeContent = CodeContent(html: string, css: string, javascript: string, combinedCode: string)

  /** The argument of `setAllCode`. */
  datatype CodeParts = CodeParts(html: string, css: string, javascript: string)

  /** The derived `hasData` cell: data is loaded and holds at least one record. */
  predicate HasDataIn(csvData: Option<seq<Record>>) {
    csvData.Some? && |csvData.value| > 0
  }

  class Store {
    var csvData: Option<seq<Record>>
    var toastMessage: Option<string>
    var activeEditor: EditorType
    var htmlContent: string
    var cssContent: string
    var javascriptContent: string
    var combinedContent: string
    var isGenerating: bool
    var error: Option<string>

    /** `hasData` */
    function HasData(): bool
      reads this`csvData
    {
      HasDataIn(csvData)
    }

    /** `createAppStore()`: no data, the combined editor, empty code, idle. */
    constructor ()
      ensures csvData == None && !HasData()
      ensures activeEditor == CombinedEditor
      ensures htmlContent == "" && cssContent == "" && javascriptContent == "" && combinedContent == ""
      ensures !isGenerating && error == None && toastMessage == None
    {
      csvData := None;
      toastMessage := None;
      activeEditor := CombinedEditor;
      htmlContent := "";
      cssContent := "";
      javascriptContent := "";
      combinedContent := "";
      isGenerating := false;
      error := None;
    }

    method SetData(data: Option<seq<Record>>)
      modifies this`csvData
      ensures csvData == data
      ensures HasData() <==> data.Some? && |data.value| > 0
    {
      csvData := data;
    }

    method GetData() returns (data: Option<seq<Record>>)
      ensures data == csvData
    {
      data := csvData;
    }

    /** Overwrites exactly the content cell of the given kind. */
    method UpdateCode(kind: CodeKind, content: string)
      modifies this`htmlContent, this`cssContent, this`javascriptContent
      ensures htmlContent == if kind == HtmlCode then content else old(htmlContent)
      ensures cssContent == if kind == CssCode then content else old(cssContent)
      ensures javascriptContent == if kind == JavascriptCode then content else old(javascriptContent)
    {
      match kind {
        case HtmlCode => htmlContent := content;
        case CssCode => cssContent := content;
        case JavascriptCode => javascriptContent := content;
      }
    }

    method UpdateCombinedCode(code: string)
      modifies this`combinedContent
      ensures combinedContent == code
    {
      combinedContent := code;
    }

    method GetCodeContent() returns (c: CodeContent)
      ensures c.html == htmlContent && c.css == cssContent
      ensures c.javascript == javascriptContent && c.combinedCode == combinedContent
    {
      c := CodeContent(htmlContent, cssContent, javascriptContent, combinedContent);
    }

    /** Sets the three separate code cells; the combined document is kept. */
    method SetAllCode(content: CodeParts)
      modifies this`htmlContent, this`cssContent, this`javascriptContent
      ensures htmlContent == content.html && cssContent == content.css
      ensures javascriptContent == content.javascript
    {
      htmlContent := content.html;
      cssContent := content.css;
      javascriptContent := content.javascript;
    }

    method SetActiveEditor(editor: EditorType)
      modifies this`activeEditor
      ensures activeEditor == editor
    {
      activeEditor := editor;
    }

    method SetError(errorMessage: Option<string>)
      modifies this`error
      ensures error == errorMessage
    {
      error := errorMessage;
    }

    method SetGenerating(generating: bool)
      modifies this`isGenerating
      ensures isGenerating == generating
    {
      isGenerating := generating;
    }

    method ShowToast(message: string)
      modifies this`toastMessage
      ensures toastMessage == Some(message)
    {
      toastMessage := Some(message);
    }

    /** Drops the data, the error and all code; the editor choice, the
        generation flag and the toast survive. */
    method Clear()
      modifies this`csvData, this`error, this`htmlContent, this`cssContent,
               this`javascriptContent, this`combinedContent
      ensures csvData == None && !HasData() && error == None
      ensures htmlContent == "" && cssContent == "" && javascriptContent == "" && combinedContent == ""
    {
      csvData := None;
      error := None;
      htmlContent := "";
      cssContent := "";
      javascriptContent := "";
      combinedContent := "";
    }
  }
}
