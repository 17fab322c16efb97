/** The face routes of blueprints/faces_api.py: registering a person with a
    photo, renaming one and deleting one.  `uuid4` is a parameter; saving
    and removing the photo file are not modelled. */
module FacesApi {
  import opened Common
  import opened Text
  import opened Catalog
  import Smoothing

  type PersonId = Smoothing.PersonId

  const AllowedExtensions: set<string> := {"png", "jpg", "jpeg"}

  predicate AllowedFile(filename: string)
  {
    HasAllowedExtension(filename, AllowedExtensions)
  }

  /** A person about to be created: its stripped name and the stored photo
      name. */
  datatype NewFace = NewFace(name: string, photoPath: string)

  /** The checks of `upload_face`, in order, and the photo name it stores.
      `formName` is the form's `name` field, if sent. */
  function UploadFace(hasPhoto: bool, formName: Option<string>, filename: string, hex: string): Result<NewFace, HttpError>
  {
    var name := Strip(if formName.Some? then formName.value else "");
    if !hasPhoto then Failure(HttpError(400, "No se proporcionó foto"))
    else if name == "" then Failure(HttpError(400, "El nombre es requerido"))
    else if filename == "" then Failure(HttpError(400, "No se seleccionó archivo"))
    else if !AllowedFile(filename) then Failure(HttpError(400, "Formato de archivo no permitido"))
    else Success(NewFace(name, hex + "." + Lower(Extension(filename).value)))
  }

  /** A name made only of whitespace (or empty). */
  predicate Blank(s: string)
  {
    forall i :: 0 <= i < |s| ==> IsSpace(s[i])
  }

  /** An upload is accepted exactly when a photo is sent, the name is not
      blank and the file is a png, jpg or jpeg; a blank name is reported
      before any problem with the file. */
  lemma UploadFaceAccepted(hasPhoto: bool, formName: Option<string>, filename: string, hex: string)
    ensures var sent := if formName.Some? then formName.value else "";
      && (UploadFace(hasPhoto, formName, filename, hex).Success?
          <==> hasPhoto && !Blank(sent) && filename != "" && AllowedFile(filename))
      && (hasPhoto && Blank(sent) ==>
            UploadFace(hasPhoto, formName, filename, hex) == Failure(HttpError(400, "El nombre es requerido")))
  {
    StripProperties(if formName.Some? then formName.value else "");
  }

  /** The accepted name is the sent one without surrounding whitespace, and
      the photo keeps the lowered extension of the uploaded name. */
  lemma UploadFaceStored(hasPhoto: bool, formName: Option<string>, filename: string, hex: string)
    requires UploadFace(hasPhoto, formName, filename, hex).Success?
    ensures var face := UploadFace(hasPhoto, formName, filename, hex).value;
      var ext := Lower(Extension(filename).value);
      && face.name != [] && !IsSpace(face.name[0]) && !IsSpace(face.name[|face.name| - 1])
      && ext in AllowedExtensions
      && face.photoPath == hex + "." + ext
      && Extension(face.photoPath) == Some(ext)
  {
    var sent := if formName.Some? then formName.value else "";
    StripEnds(sent);
    ExtensionOf(hex, Extension(filename).value);
  }

  /** `upload_face` on the store: `created` is the id `Person.create`
      returned, or nothing when the insert raised, which is a 400 that
      leaves the table as it was. */
  method AddFace(store: Store, hasPhoto: bool, formName: Option<string>, filename: string, hex: string, created: Option<PersonId>)
    returns (r: Result<PersonRow, HttpError>)
    modifies store`persons
    ensures match UploadFace(hasPhoto, formName, filename, hex) {
      case Failure(e) => r == Failure(e) && store.persons == old(store.persons)
      case Success(face) =>
        if created.Some? then
          && r == Success(PersonRow(created.value, face.name, face.photoPath))
          && store.persons == old(store.persons) + [r.value]
        else r.Failure? && r.error.status == 400 && store.persons == old(store.persons)
    }
  {
    var checked := UploadFace(hasPhoto, formName, filename, hex);
    if checked.Failure? {
      return Failure(checked.error);
    }
    var face := checked.value;
    if created.None? {
      return Failure(HttpError(400, "Person.create"));
    }
    store.CreatePerson(created.value, face.name, face.photoPath);
    r := Success(PersonRow(created.value, face.name, face.photoPath));
  }

  /** `update_face`: `newName` is the body's `name` field, if sent.  A blank
      name is a 400 before the person is looked up, a missing person a
      404; in both cases nothing changes.  Otherwise the person, and only
      it, is renamed to the stripped name. */
  method UpdateFace(store: Store, personId: PersonId, newName: Option<string>) returns (r: Result<string, HttpError>)
    modifies store`persons
    ensures var name := Strip(if newName.Some? then newName.value else "");
      && (name == "" ==> r == Failure(HttpError(400, "El nombre es requerido")) && store.persons == old(store.persons))
      && (name != "" && PersonById(old(store.persons), personId).None? ==>
            r == Failure(HttpError(404, "Persona no encontrada")) && store.persons == old(store.persons))
      && (name != "" && PersonById(old(store.persons), personId).Some? ==>
            r == Success(name) && store.persons == RenamePerson(old(store.persons), personId, name))
  {
    var name := Strip(if newName.Some? then newName.value else "");
    if name == "" {
      return Failure(HttpError(400, "El nombre es requerido"));
    }
    var person := PersonById(store.persons, personId);
    if person.None? {
      return Failure(HttpError(404, "Persona no encontrada"));
    }
    store.UpdatePersonName(personId, name);
    r := Success(name);
  }

  /** `delete_face`: a missing person is a 404 and nothing is deleted;
      otherwise the person's row is removed and no other. */
  method DeleteFace(store: Store, personId: PersonId) returns (r: Result<PersonRow, HttpError>)
    modifies store`persons
    ensures PersonById(old(store.persons), personId).None? ==>
      r == Failure(HttpError(404, "Persona no encontrada")) && store.persons == old(store.persons)
    ensures PersonById(old(store.persons), personId).Some? ==>
      && r == Success(PersonById(old(store.persons), personId).value)
      && store.persons == DeletePerson(old(store.persons), personId)
      && PersonById(store.persons, personId).None?
  {
    var person := PersonById(store.persons, personId);
    if person.None? {
      return Failure(HttpError(404, "Persona no encontrada"));
    }
    store.RemovePerson(personId);
    DeleteLookup(old(store.persons), personId, personId);
    r := Success(person.value);
  }
}
