/** The typed endpoint surface of `RawClient` (moi/client.py:368-984): every
    operation that takes a request payload, its name and its fixed path. All of
    them are POSTs; the operations without a payload are `FixedEndpoint`s. */
module Routes {
  import opened Py

  datatype Endpoint =
    | CreateCatalog
    | DeleteCatalog
    | UpdateCatalog
    | GetCatalog
    | GetCatalogRefList
    | CreateDatabase
    | DeleteDatabase
    | UpdateDatabase
    | GetDatabase
    | ListDatabases
    | GetDatabaseChildren
    | GetDatabaseRefList
    | CreateTable
    | GetTable
    | CheckTableExists
    | PreviewTable
    | LoadTable
    | GetTableDownloadLink
    | TruncateTable
    | DeleteTable
    | GetTableFullPath
    | GetTableRefList
    | CreateVolume
    | DeleteVolume
    | UpdateVolume
    | GetVolume
    | GetVolumeRefList
    | GetVolumeFullPath
    | AddVolumeWorkflowRef
    | RemoveVolumeWorkflowRef
    | CreateFile
    | UpdateFile
    | DeleteFile
    | DeleteFileRef
    | GetFile
    | ListFiles
    | UploadFile
    | GetFileDownloadLink
    | GetFilePreviewLink
    | GetFilePreviewStream
    | CreateFolder
    | UpdateFolder
    | DeleteFolder
    | CleanFolder
    | GetFolderRefList
    | PreviewConnectorFile
    | CreateUser
    | DeleteUser
    | GetUserDetail
    | ListUsers
    | UpdateUserPassword
    | UpdateUserInfo
    | UpdateUserRoles
    | UpdateUserStatus
    | UpdateMyInfo
    | UpdateMyPassword
    | CreateRole
    | DeleteRole
    | GetRole
    | ListRoles
    | ListRolesByCategoryAndObject
    | UpdateRoleCodeList
    | UpdateRoleInfo
    | UpdateRolesByObject
    | UpdateRoleStatus
    | ListObjectsByCategory
    | RunNl2sql
    | CreateKnowledge
    | UpdateKnowledge
    | DeleteKnowledge
    | GetKnowledge
    | ListKnowledge
    | SearchKnowledge
    | ListUserLogs
    | ListRoleLogs

  /** The Python method name, as `ErrNilRequest` reports it. */
  function Name(op: Endpoint): string {
    match op
    case CreateCatalog => "create_catalog"
    case DeleteCatalog => "delete_catalog"
    case UpdateCatalog => "update_catalog"
    case GetCatalog => "get_catalog"
    case GetCatalogRefList => "get_catalog_ref_list"
    case CreateDatabase => "create_database"
    case DeleteDatabase => "delete_database"
    case UpdateDatabase => "update_database"
    case GetDatabase => "get_database"
    case ListDatabases => "list_databases"
    case GetDatabaseChildren => "get_database_children"
    case GetDatabaseRefList => "get_database_ref_list"
    case CreateTable => "create_table"
    case GetTable => "get_table"
    case CheckTableExists => "check_table_exists"
    case PreviewTable => "preview_table"
    case LoadTable => "load_table"
    case GetTableDownloadLink => "get_table_download_link"
    case TruncateTable => "truncate_table"
    case DeleteTable => "delete_table"
    case GetTableFullPath => "get_table_full_path"
    case GetTableRefList => "get_table_ref_list"
    case CreateVolume => "create_volume"
    case DeleteVolume => "delete_volume"
    case UpdateVolume => "update_volume"
    case GetVolume => "get_volume"
    case GetVolumeRefList => "get_volume_ref_list"
    case GetVolumeFullPath => "get_volume_full_path"
    case AddVolumeWorkflowRef => "add_volume_workflow_ref"
    case RemoveVolumeWorkflowRef => "remove_volume_workflow_ref"
    case CreateFile => "create_file"
    case UpdateFile => "update_file"
    case DeleteFile => "delete_file"
    case DeleteFileRef => "delete_file_ref"
    case GetFile => "get_file"
    case ListFiles => "list_files"
    case UploadFile => "upload_file"
    case GetFileDownloadLink => "get_file_download_link"
    case GetFilePreviewLink => "get_file_preview_link"
    case GetFilePreviewStream => "get_file_preview_stream"
    case CreateFolder => "create_folder"
    case UpdateFolder => "update_folder"
    case DeleteFolder => "delete_folder"
    case CleanFolder => "clean_folder"
    case GetFolderRefList => "get_folder_ref_list"
    case PreviewConnectorFile => "preview_connector_file"
    case CreateUser => "create_user"
    case DeleteUser => "delete_user"
    case GetUserDetail => "get_user_detail"
    case ListUsers => "list_users"
    case UpdateUserPassword => "update_user_password"
    case UpdateUserInfo => "update_user_info"
    case UpdateUserRoles => "update_user_roles"
    case UpdateUserStatus => "update_user_status"
    case UpdateMyInfo => "update_my_info"
    case UpdateMyPassword => "update_my_password"
    case CreateRole => "create_role"
    case DeleteRole => "delete_role"
    case GetRole => "get_role"
    case ListRoles => "list_roles"
    case ListRolesByCategoryAndObject => "list_roles_by_category_and_object"
    case UpdateRoleCodeList => "update_role_code_list"
    case UpdateRoleInfo => "update_role_info"
    case UpdateRolesByObject => "update_roles_by_object"
    case UpdateRoleStatus => "update_role_status"
    case ListObjectsByCategory => "list_objects_by_category"
    case RunNl2sql => "run_nl2sql"
    case CreateKnowledge => "create_knowledge"
    case UpdateKnowledge => "update_knowledge"
    case DeleteKnowledge => "delete_knowledge"
    case GetKnowledge => "get_knowledge"
    case ListKnowledge => "list_knowledge"
    case SearchKnowledge => "search_knowledge"
    case ListUserLogs => "list_user_logs"
    case ListRoleLogs => "list_role_logs"
  }

  function Path(op: Endpoint): string {
    match op
    case CreateCatalog => "/catalog/create"
    case DeleteCatalog => "/catalog/delete"
    case UpdateCatalog => "/catalog/update"
    case GetCatalog => "/catalog/info"
    case GetCatalogRefList => "/catalog/ref_list"
    case CreateDatabase => "/catalog/database/create"
    case DeleteDatabase => "/catalog/database/delete"
    case UpdateDatabase => "/catalog/database/update"
    case GetDatabase => "/catalog/database/info"
    case ListDatabases => "/catalog/database/list"
    case GetDatabaseChildren => "/catalog/database/children"
    case GetDatabaseRefList => "/catalog/database/ref_list"
    case CreateTable => "/catalog/table/create"
    case GetTable => "/catalog/table/info"
    case CheckTableExists => "/catalog/table/exist"
    case PreviewTable => "/catalog/table/preview"
    case LoadTable => "/catalog/table/load"
    case GetTableDownloadLink => "/catalog/table/download"
    case TruncateTable => "/catalog/table/truncate"
    case DeleteTable => "/catalog/table/delete"
    case GetTableFullPath => "/catalog/table/full_path"
    case GetTableRefList => "/catalog/table/ref_list"
    case CreateVolume => "/catalog/volume/create"
    case DeleteVolume => "/catalog/volume/delete"
    case UpdateVolume => "/catalog/volume/update"
    case GetVolume => "/catalog/volume/info"
    case GetVolumeRefList => "/catalog/volume/ref_list"
    case GetVolumeFullPath => "/catalog/volume/full_path"
    case AddVolumeWorkflowRef => "/catalog/volume/add_ref_workflow"
    case RemoveVolumeWorkflowRef => "/catalog/volume/remove_ref_workflow"
    case CreateFile => "/catalog/file/create"
    case UpdateFile => "/catalog/file/update"
    case DeleteFile => "/catalog/file/delete"
    case DeleteFileRef => "/catalog/file/delete_ref"
    case GetFile => "/catalog/file/info"
    case ListFiles => "/catalog/file/list"
    case UploadFile => "/catalog/file/upload"
    case GetFileDownloadLink => "/catalog/file/download"
    case GetFilePreviewLink => "/catalog/file/preview_link"
    case GetFilePreviewStream => "/catalog/file/preview_stream"
    case CreateFolder => "/catalog/folder/create"
    case UpdateFolder => "/catalog/folder/update"
    case DeleteFolder => "/catalog/folder/delete"
    case CleanFolder => "/catalog/folder/clean"
    case GetFolderRefList => "/catalog/folder/ref_list"
    case PreviewConnectorFile => "/connectors/file/preview"
    case CreateUser => "/user/create"
    case DeleteUser => "/user/delete"
    case GetUserDetail => "/user/detail_info"
    case ListUsers => "/user/list"
    case UpdateUserPassword => "/user/update_password"
    case UpdateUserInfo => "/user/update_info"
    case UpdateUserRoles => "/user/update_role_list"
    case UpdateUserStatus => "/user/update_status"
    case UpdateMyInfo => "/user/me/update_info"
    case UpdateMyPassword => "/user/me/update_password"
    case CreateRole => "/role/create"
    case DeleteRole => "/role/delete"
    case GetRole => "/role/info"
    case ListRoles => "/role/list"
    case ListRolesByCategoryAndObject => "/role/list_by_category_and_obj"
    case UpdateRoleCodeList => "/role/update_code_list"
    case UpdateRoleInfo => "/role/update_info"
    case UpdateRolesByObject => "/role/update_roles_by_obj"
    case UpdateRoleStatus => "/role/update_status"
    case ListObjectsByCategory => "/rbac/priv/list_obj_by_category"
    case RunNl2sql => "/nl2sql/run_sql"
    case CreateKnowledge => "/catalog/nl2sql_knowledge/create"
    case UpdateKnowledge => "/catalog/nl2sql_knowledge/update"
    case DeleteKnowledge => "/catalog/nl2sql_knowledge/delete"
    case GetKnowledge => "/catalog/nl2sql_knowledge/get"
    case ListKnowledge => "/catalog/nl2sql_knowledge/list"
    case SearchKnowledge => "/catalog/nl2sql_knowledge/search"
    case ListUserLogs => "/log/user"
    case ListRoleLogs => "/log/role"
  }

  /** Operations that send a fixed body (`{}` or none) and need no payload. */
  datatype FixedEndpoint = ListCatalogs | GetCatalogTree | GetTableOverview | GetMyApiKey | RefreshMyApiKey | GetMyInfo

  function FixedPath(op: FixedEndpoint): string {
    match op
    case ListCatalogs => "/catalog/list"
    case GetCatalogTree => "/catalog/tree"
    case GetTableOverview => "/catalog/table/overview"
    case GetMyApiKey => "/user/me/api-key"
    case RefreshMyApiKey => "/user/me/api-key/refresh"
    case GetMyInfo => "/user/me/info"
  }

  /** `{}` for the three listing operations, `None` (no body) for the three `/user/me` ones. */
  function FixedBody(op: FixedEndpoint): Json {
    match op
    case ListCatalogs | GetCatalogTree | GetTableOverview => JObj(map[])
    case GetMyApiKey | RefreshMyApiKey | GetMyInfo => JNull
  }
}
