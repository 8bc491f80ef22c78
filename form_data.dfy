/**
 * A multipart request body (`FormData`): named parts that are plain text,
 * a JSON-serialised collection, or an uploaded file.
 */
module FormData {
  import opened Profile

  /** An uploaded file, identified by the name the browser gives it. */
  datatype FileRef = FileRef(fileName: string)

  /** The collection a JSON part carries (the text `JSON.stringify` makes of it is not modelled). */
  datatype Json =
    | JStrings(items: seq<string>)
    | JCertifications(certifications: seq<Certification>)
    | JLanguages(languages: seq<LanguageEntry>)
    | JEducation(education: seq<Education>)

  datatype Part =
    | TextPart(name: string, text: string)
    | JsonPart(name: string, json: Json)
    | FilePart(name: string, file: FileRef)

  /** How many parts carry the given name. */
  function CountNamed(parts: seq<Part>, name: string): (n: nat)
    ensures n <= |parts|
  {
    if parts == [] then 0
    else (if parts[0].name == name then 1 else 0) + CountNamed(parts[1..], name)
  }

  /** How many parts are files. */
  function CountFiles(parts: seq<Part>): (n: nat)
    ensures n <= |parts|
  {
    if parts == [] then 0
    else (if parts[0].FilePart? then 1 else 0) + CountFiles(parts[1..])
  }

  /** Counting distributes over concatenation. */
  lemma {:induction false} CountAppend(a: seq<Part>, b: seq<Part>, name: string)
    ensures CountNamed(a + b, name) == CountNamed(a, name) + CountNamed(b, name)
    ensures CountFiles(a + b) == CountFiles(a) + CountFiles(b)
  {
    if a == [] {
      assert a + b == b;
    } else {
      assert (a + b)[1..] == a[1..] + b;
      CountAppend(a[1..], b, name);
    }
  }
}
