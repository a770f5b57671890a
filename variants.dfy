/**
 * Where the three front ends part ways on the same input: the case of a file
 * extension and a stored frame that has columns but no rows.
 */
module Variants {
  import opened Outcomes
  import opened Strings
  import opened Tables
  import DashMain
  import StreamlitUuid
  import StreamlitNamed

  /** Every name streamlit.py's case-sensitive test accepts, new.py's test on
      the lower-cased name accepts too, and for the same decoder. */
  lemma LowerCasedTestAcceptsMore(name: string)
    requires StreamlitNamed.FormatOfName(name).Some?
    ensures StreamlitUuid.FormatOfName(name) == StreamlitNamed.FormatOfName(name)
  {
    if EndsWith(name, ".xlsx") {
      EndsWithLower(name, ".xlsx");
    } else {
      EndsWithLower(name, ".csv");
      var l := Lower(name);
      assert l[|l| - 1] == 'v' by {
        assert l[|l| - 4..][3] == 'v';
      }
    }
  }

  /** "REPORT.CSV" is refused by streamlit.py, read as CSV by new.py, and
      read as CSV by main.py's upload handler, which reads every name not
      ending ".xlsx" as CSV. */
  lemma UpperCaseExtension()
    ensures StreamlitNamed.FormatOfName("REPORT.CSV").None?
    ensures StreamlitUuid.FormatOfName("REPORT.CSV") == Some(Csv)
    ensures DashMain.FormatOf(DashMain.UploadFileType("REPORT.CSV")) == Some(Csv)
  {
    var l := Lower("REPORT.CSV");
    assert l == "report.csv";
    assert l[|l| - 4..] == ".csv";
  }

  /** A single stored frame with columns but no rows: main.py and new.py list
      its columns, streamlit.py lists none because pandas calls it empty. */
  lemma RowlessFrameColumns(t: Frame)
    requires t.columns != [] && t.rows == []
    ensures DashMain.ColumnNames([t]) == t.columns
    ensures StreamlitUuid.ColumnNames([t]) == t.columns
    ensures StreamlitNamed.ColumnNames([t]) == []
  {
    ConcatSingleton(t);
  }
}
