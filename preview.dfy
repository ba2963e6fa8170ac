/** The preview document of src/components/Chat/chat.ts: a fixed page
    template into which the generated styles, markup, data and script are
    spliced. */
module Preview {

  const PageStart := "<!DOCTYPE html>\n<html lang=\"en\">\n<head>\n  <meta charset=\"UTF-8\">\n"
    + "  <meta name=\"viewport\" content=\"width=device-width, initial-scale=1.0\">\n"
    + "  <script src=\"https://d3js.org/d3.v7.min.js\"></script>\n"
    + "  <script src=\"https://cdn.jsdelivr.net/npm/chart.js\"></script>\n"
    + "  <script src=\"https://cdnjs.cloudflare.com/ajax/libs/three.js/r128/three.min.js\"></script>\n"
    + "  <style>\n    body {\n      margin: 0;\n      font-family: system-ui, -apple-system, sans-serif;\n    }\n    "
  const AfterStyles := "\n  </style>\n</head>\n<body>\n  "
  const AfterMarkup := "\n  <script>\n    (function() {\n      try {\n        const data = "
  const AfterData := ";\n        window.data = data;\n        "
  const PageEnd := "\n      } catch (error) {\n        console.error('Error in visualization:', error);\n"
    + "        document.body.innerHTML += '<div style=\"color: red; padding: 1rem;\">Error: ' + error.message + '</div>';\n"
    + "      }\n    })();\n  </script>\n</body>\n</html>"

  /** A piece placed between two others is found at its offset. */
  lemma Embedded<T>(a: seq<T>, x: seq<T>, b: seq<T>)
    ensures (a + x + b)[|a|..|a| + |x|] == x
  {
  }

  /** The fixed text of a page around its four generated parts. */
  datatype Template = Template(start: string, afterStyles: string, afterMarkup: string, afterData: string, end: string)

  /** The page of `generateFullHtmlCode`: the fixed head with the chart
      libraries and base styles, then the body whose script binds the data
      to `window.data` and runs the generated script inside a guard that
      reports its error on the page. */
  const Page := Template(PageStart, AfterStyles, AfterMarkup, AfterData, PageEnd)

  /** `generateFullHtmlCode` on a template (the chat's is `Page`): its
      length is the template's plus the parts', and the styles, the markup,
      the data and the script each sit verbatim at a place fixed by the
      template and the parts before them (`PageFrame` adds the head and the
      end). */
  function FullHtmlCode(t: Template, html: string, css: string, javascript: string, dataJson: string): (r: string)
    ensures |r| == |t.start| + |css| + |t.afterStyles| + |html| + |t.afterMarkup| + |dataJson| + |t.afterData| + |javascript| + |t.end|
    ensures r[|t.start|..|t.start| + |css|] == css
    ensures var h := |t.start| + |css| + |t.afterStyles|;
            r[h..h + |html|] == html
    ensures var d := |t.start| + |css| + |t.afterStyles| + |html| + |t.afterMarkup|;
            r[d..d + |dataJson|] == dataJson
    ensures var j := |r| - |t.end| - |javascript|;
            r[j..j + |javascript|] == javascript
  {
    var p1 := t.start;
    var p2 := p1 + css + t.afterStyles;
    var p3 := p2 + html + t.afterMarkup;
    var p4 := p3 + dataJson + t.afterData;
    Embedded(p1, css, t.afterStyles + html + t.afterMarkup + dataJson + t.afterData + javascript + t.end);
    Embedded(p2, html, t.afterMarkup + dataJson + t.afterData + javascript + t.end);
    Embedded(p3, dataJson, t.afterData + javascript + t.end);
    Embedded(p4, javascript, t.end);
    p4 + javascript + t.end
  }

  /** Whatever the parts, the page opens with the template's head (the
      doctype, the chart libraries and the base styles) and closes with its
      end (the error guard and the closing tags). */
  lemma PageFrame(t: Template, html: string, css: string, javascript: string, dataJson: string)
    ensures var r := FullHtmlCode(t, html, css, javascript, dataJson);
            r[..|t.start|] == t.start && r[|r| - |t.end|..] == t.end
  {
    var n := |t.start|;
    var q1 := t.start + css;
    var q2 := q1 + t.afterStyles;
    var q3 := q2 + html;
    var q4 := q3 + t.afterMarkup;
    var q5 := q4 + dataJson;
    var q6 := q5 + t.afterData;
    var q7 := q6 + javascript;
    PrefixKept(t.start, css, n);
    PrefixKept(q1, t.afterStyles, n);
    PrefixKept(q2, html, n);
    PrefixKept(q3, t.afterMarkup, n);
    PrefixKept(q4, dataJson, n);
    PrefixKept(q5, t.afterData, n);
    PrefixKept(q6, javascript, n);
    PrefixKept(q7, t.end, n);
    assert FullHtmlCode(t, html, css, javascript, dataJson) == q7 + t.end;
  }

  /** Appending leaves a prefix of the front part alone. */
  lemma PrefixKept<T>(a: seq<T>, x: seq<T>, n: nat)
    requires n <= |a|
    ensures (a + x)[..n] == a[..n]
  {
  }
}
