/** Shapes of the provider records the partner API returns
    (services/vishwakarmaService.js) and that are also stored raw in the
    `artisans.service_category` column read by controllers/artisanController.js.

    Partner ids are natural numbers; the value 0 stands for every falsy id
    (missing, null, 0, empty string), since both readers test ids with `!id`.
    A list-valued field is `Some(list)` when it is an array and `None` when it
    is absent, null or not an array. An entry of a list is `None` when it is
    null. */
module Partner {
  import opened JsValues

  datatype ServiceEntry = ServiceEntry(serviceId: nat, serviceName: string)

  datatype SubCategoryEntry = SubCategoryEntry(
    serviceSubCategoryId: nat,
    subCategoryName: string,
    service: Option<seq<Option<ServiceEntry>>>)

  datatype CategoryEntry = CategoryEntry(
    serviceCategoryId: nat,
    serviceCategoryName: string,
    serviceSubCategory: Option<seq<Option<SubCategoryEntry>>>)

  /** The `serviceCategory` value: an array of entries, or a single value that
      is not an array (an entry, or null). */
  datatype CategoryBlob = Many(entries: seq<Option<CategoryEntry>>) | One(entry: Option<CategoryEntry>)

  /** One provider record. `artisanId` is the text `String(artisanId)` yields;
      the coordinates are the decimal strings the partner sends. */
  datatype Artisan = Artisan(
    artisanId: string,
    artisanName: string,
    contactNo: string,
    lattitude: string,
    longitude: string,
    serviceCategory: CategoryBlob)
}
