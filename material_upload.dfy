/** The instructional-material page: a list of uploaded materials and the three
    inputs of the upload form, with the guarded append that resets the inputs. */
module MaterialUpload {

  datatype MaterialType = Pdf | Image | Video

  datatype Material = Material(id: string, kind: MaterialType, name: string, member: string)

  const InitialMaterials: seq<Material> := [
    Material("1", Pdf, "Diet Plan - Week 1", "Amit"),
    Material("2", Image, "Squat Form Guide", "Rahul"),
    Material("3", Video, "Yoga Flow Tutorial", "Sneha")
  ]

  predicate DistinctIds(ms: seq<Material>)
  {
    forall i, j :: 0 <= i < j < |ms| ==> ms[i].id != ms[j].id
  }

  lemma InitialIdsDistinct()
    ensures |InitialMaterials| == 3 && DistinctIds(InitialMaterials)
  {
  }

  class UploadPage {
    var materials: seq<Material>
    var fileName: string
    var fileType: MaterialType
    var member: string

    constructor ()
      ensures materials == InitialMaterials && fileName == "" && fileType == Pdf && member == ""
    {
      materials := InitialMaterials;
      fileName := "";
      fileType := Pdf;
      member := "";
    }

    method SetFileName(v: string)
      modifies this`fileName
      ensures fileName == v
    {
      fileName := v;
    }

    method SetFileType(t: MaterialType)
      modifies this`fileType
      ensures fileType == t
    {
      fileType := t;
    }

    method SetMember(v: string)
      modifies this`member
      ensures member == v
    {
      member := v;
    }

    /** `uploadMaterial`: with an empty file name or member nothing happens;
        otherwise one material built from the inputs, with the identifier
        `newId` (the clock's reading as text), is appended, and the inputs reset. */
    method UploadMaterial(newId: string)
      modifies this
      ensures old(fileName) == "" || old(member) == "" ==>
        materials == old(materials) && fileName == old(fileName) && fileType == old(fileType) && member == old(member)
      ensures old(fileName) != "" && old(member) != "" ==>
        && materials == old(materials) + [Material(newId, old(fileType), old(fileName), old(member))]
        && fileName == "" && member == "" && fileType == Pdf
    {
      if fileName == "" || member == "" {
        return;
      }
      var newMaterial := Material(newId, fileType, fileName, member);
      materials := materials + [newMaterial];
      fileName := "";
      member := "";
      fileType := Pdf;
    }
  }

  /** An upload keeps the identifiers distinct when the new one is unused (two
      uploads within the same millisecond would break this). */
  lemma AppendKeepsIdsDistinct(ms: seq<Material>, m: Material)
    requires DistinctIds(ms)
    requires forall i :: 0 <= i < |ms| ==> ms[i].id != m.id
    ensures DistinctIds(ms + [m])
  {
  }

  /** Two uploads from the start page: both are appended in order after the three
      initial materials, which stay as they were. */
  method TwoUploads() returns (ms: seq<Material>)
    ensures |ms| == 5 && ms[..3] == InitialMaterials
    ensures ms[3] == Material("100", Video, "Warm-up", "Amit")
    ensures ms[4] == Material("101", Pdf, "Meal Log", "Rahul")
    ensures DistinctIds(ms)
  {
    var page := new UploadPage();
    page.SetFileType(Video);
    page.SetFileName("Warm-up");
    page.SetMember("Amit");
    page.UploadMaterial("100");
    page.SetFileName("Meal Log");
    page.SetMember("Rahul");
    page.UploadMaterial("101");
    ms := page.materials;
  }
}
