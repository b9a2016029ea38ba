/** The course catalog routes (server/routes/courses.js): create, list, get
    by id, partial update and hard delete over a store of courses keyed by
    id, each answering with an explicit status. Mongoose is replaced by a
    map and a counter that hands out fresh ids; a store call that throws is
    a fault input that leads to the generic 500. */
module Catalog {
  import opened Common

  /** The body fields the create handler destructures. */
  datatype CourseInfo = CourseInfo(
    title: string,
    description: string,
    price: int,
    image: string,
    videoUrl: string)

  /** A body whose fields may be absent; also the shape of the `$set` document. */
  datatype PartialCourse = PartialCourse(
    title: Option<string>,
    description: Option<string>,
    price: Option<int>,
    image: Option<string>,
    videoUrl: Option<string>)

  /** JavaScript truthiness of an optional string: present and non-empty. */
  predicate TruthyText(v: Option<string>) {
    v.Some? && v.value != ""
  }

  /** JavaScript truthiness of an optional number: present and non-zero. */
  predicate TruthyPrice(v: Option<int>) {
    v.Some? && v.value != 0
  }

  datatype Reply =
    | CourseJson(course: Course)
    | CourseListJson(courses: set<Course>)
    | Removed                               // 200 {msg: "Course removed"}
    | Failure(status: nat, msg: string)

  const NotAuthorized: Reply := Failure(401, "User not authorized")
  const NotFound: Reply := Failure(404, "Course not found")
  const ServerError: Reply := Failure(500, ServerErrorMsg)

  /** Where a handler with two store calls can fail: the `findById` lookup,
      or the write that follows the checks. */
  datatype StoreFault = NoFault | LookupFails | WriteFails

  /** The `courseFields` object: a field is set exactly when the body's
      value is truthy, and then it carries that value. */
  function CourseFields(body: PartialCourse): (f: PartialCourse)
    ensures (f.title.Some? <==> TruthyText(body.title)) && (f.title.Some? ==> f.title == body.title)
    ensures (f.description.Some? <==> TruthyText(body.description)) && (f.description.Some? ==> f.description == body.description)
    ensures (f.price.Some? <==> TruthyPrice(body.price)) && (f.price.Some? ==> f.price == body.price)
    ensures (f.image.Some? <==> TruthyText(body.image)) && (f.image.Some? ==> f.image == body.image)
    ensures (f.videoUrl.Some? <==> TruthyText(body.videoUrl)) && (f.videoUrl.Some? ==> f.videoUrl == body.videoUrl)
  {
    PartialCourse(
      if TruthyText(body.title) then body.title else None,
      if TruthyText(body.description) then body.description else None,
      if TruthyPrice(body.price) then body.price else None,
      if TruthyText(body.image) then body.image else None,
      if TruthyText(body.videoUrl) then body.videoUrl else None)
  }

  /** The successive conditional assignments that build `courseFields`. */
  method BuildCourseFields(body: PartialCourse) returns (f: PartialCourse)
    ensures f == CourseFields(body)
  {
    f := PartialCourse(None, None, None, None, None);
    if TruthyText(body.title) { f := f.(title := body.title); }
    if TruthyText(body.description) { f := f.(description := body.description); }
    if TruthyPrice(body.price) { f := f.(price := body.price); }
    if TruthyText(body.image) { f := f.(image := body.image); }
    if TruthyText(body.videoUrl) { f := f.(videoUrl := body.videoUrl); }
  }

  function Overwrite<T>(current: T, v: Option<T>): T {
    if v.Some? then v.value else current
  }

  /** `{$set: fields}`: every present field overwrites, the rest stay. */
  function ApplySet(c: Course, f: PartialCourse): (r: Course)
    ensures r.id == c.id
  {
    Course(c.id,
      Overwrite(c.title, f.title),
      Overwrite(c.description, f.description),
      Overwrite(c.price, f.price),
      Overwrite(c.image, f.image),
      Overwrite(c.videoUrl, f.videoUrl))
  }

  /** A partial update changes exactly the fields whose body value is
      truthy; a price sent as the number 0 or a text sent as "" keeps the old value. */
  lemma UpdateOverwritesOnlyTruthyFields(c: Course, body: PartialCourse)
    ensures var u := ApplySet(c, CourseFields(body));
      && u.id == c.id
      && u.title == (if TruthyText(body.title) then body.title.value else c.title)
      && u.description == (if TruthyText(body.description) then body.description.value else c.description)
      && u.price == (if TruthyPrice(body.price) then body.price.value else c.price)
      && u.image == (if TruthyText(body.image) then body.image.value else c.image)
      && u.videoUrl == (if TruthyText(body.videoUrl) then body.videoUrl.value else c.videoUrl)
  {
  }

  /** Sending the same update twice has the effect of sending it once. */
  lemma UpdateIdempotent(c: Course, body: PartialCourse)
    ensures ApplySet(ApplySet(c, CourseFields(body)), CourseFields(body)) == ApplySet(c, CourseFields(body))
  {
  }

  /** The catalog collection. `nextId` stands for the store's fresh-id source. */
  class CourseStore {
    var courses: map<CourseId, Course>
    var nextId: nat

    /** Every record is stored under its own id, and every id in use is below `nextId`. */
    ghost predicate Valid()
      reads this
    {
      forall k :: k in courses ==> courses[k].id == k && k < nextId
    }

    constructor ()
      ensures Valid() && courses == map[]
    {
      courses := map[];
      nextId := 0;
    }

    /** POST /: the role check runs before anything else; an admin's course
        is saved under a fresh id. */
    method Create(caller: User, info: CourseInfo, saveFails: bool) returns (r: Reply)
      requires Valid()
      modifies this
      ensures Valid()
      ensures !IsAdmin(caller) ==> r == NotAuthorized && courses == old(courses)
      ensures IsAdmin(caller) && saveFails ==> r == ServerError && courses == old(courses)
      ensures IsAdmin(caller) && !saveFails ==>
        var c := Course(old(nextId), info.title, info.description, info.price, info.image, info.videoUrl);
        && c.id !in old(courses)
        && courses == old(courses)[c.id := c]
        && |courses| == |old(courses)| + 1
        && r == CourseJson(c)
      ensures nextId == old(nextId) + (if IsAdmin(caller) && !saveFails then 1 else 0)
    {
      if !IsAdmin(caller) {
        return NotAuthorized;
      }
      if saveFails {
        return ServerError;
      }
      var c := Course(nextId, info.title, info.description, info.price, info.image, info.videoUrl);
      assert c.id !in courses;
      courses := courses[c.id := c];
      nextId := nextId + 1;
      r := CourseJson(c);
    }

    /** GET /: every stored course. */
    method GetAll(findFails: bool) returns (r: Reply)
      ensures findFails ==> r == ServerError
      ensures !findFails ==> r.CourseListJson? && (forall c :: c in r.courses <==> c in courses.Values)
    {
      if findFails {
        return ServerError;
      }
      r := CourseListJson(courses.Values);
    }

    /** GET /:id: the stored course or 404. */
    method GetById(id: CourseId, findFails: bool) returns (r: Reply)
      ensures findFails ==> r == ServerError
      ensures !findFails && id in courses ==> r == CourseJson(courses[id])
      ensures !findFails && id !in courses ==> r == NotFound
    {
      if findFails {
        return ServerError;
      }
      if id !in courses {
        return NotFound;
      }
      r := CourseJson(courses[id]);
    }

    /** PUT /:id: 404 comes before 401, so a missing id answers 404 to any
        caller; an admin's update overwrites the truthy fields only and
        answers with the updated record. */
    method Update(caller: User, id: CourseId, body: PartialCourse, fault: StoreFault) returns (r: Reply)
      requires Valid()
      modifies this
      ensures Valid() && nextId == old(nextId)
      ensures fault == LookupFails ==> r == ServerError && courses == old(courses)
      ensures fault != LookupFails && id !in old(courses) ==> r == NotFound && courses == old(courses)
      ensures fault != LookupFails && id in old(courses) && !IsAdmin(caller) ==>
        r == NotAuthorized && courses == old(courses)
      ensures fault == WriteFails && id in old(courses) && IsAdmin(caller) ==>
        r == ServerError && courses == old(courses)
      ensures fault == NoFault && id in old(courses) && IsAdmin(caller) ==>
        && courses == old(courses)[id := ApplySet(old(courses)[id], CourseFields(body))]
        && r == CourseJson(courses[id])
    {
      var fields := BuildCourseFields(body);
      if fault == LookupFails {
        return ServerError;
      }
      if id !in courses {
        return NotFound;
      }
      if !IsAdmin(caller) {
        return NotAuthorized;
      }
      if fault == WriteFails {
        return ServerError;
      }
      var updated := ApplySet(courses[id], fields);
      courses := courses[id := updated];
      r := CourseJson(updated);
    }

    /** DELETE /:id: 404 before 401; an admin removes exactly that id. */
    method Delete(caller: User, id: CourseId, fault: StoreFault) returns (r: Reply)
      requires Valid()
      modifies this
      ensures Valid() && nextId == old(nextId)
      ensures fault == LookupFails ==> r == ServerError && courses == old(courses)
      ensures fault != LookupFails && id !in old(courses) ==> r == NotFound && courses == old(courses)
      ensures fault != LookupFails && id in old(courses) && !IsAdmin(caller) ==>
        r == NotAuthorized && courses == old(courses)
      ensures fault == WriteFails && id in old(courses) && IsAdmin(caller) ==>
        r == ServerError && courses == old(courses)
      ensures fault == NoFault && id in old(courses) && IsAdmin(caller) ==>
        r == Removed && courses == old(courses) - {id}
    {
      if fault == LookupFails {
        return ServerError;
      }
      if id !in courses {
        return NotFound;
      }
      if !IsAdmin(caller) {
        return NotAuthorized;
      }
      if fault == WriteFails {
        return ServerError;
      }
      courses := courses - {id};
      r := Removed;
    }
  }
}
