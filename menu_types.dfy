/** The menu records of src/types/menu.ts. Ids are of any type with equality; prices are integer cents. */
module MenuTypes {
  import opened Wrappers

  datatype MenuItem<Id> = MenuItem(id: Id, name: string, description: string, price: int, imageUrl: Option<string>)

  datatype MenuCategory<Id> = MenuCategory(id: Id, name: string, items: seq<MenuItem<Id>>)
}
